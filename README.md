# Excel analytics platform — a Dafny model of its core

The platform lets a signed-in user upload an Excel workbook. The server reads
the first sheet into rows and stores the file and an "analysis" record in
MongoDB. It turns the rows into a chart payload: Chart.js data for 2-D charts
and x/y/z columns for the 3-D charts. The React client lets the user change the
chart type and axes. It renders the payload with Chart.js, Plotly or a
three.js-style mesh. An admin panel lists users and uploads and can deactivate
or delete them. Express middleware guards the routes with a bearer token and a
role check.

This project models that core in Dafny and proves properties of the model:

- **Values and rows.** A JavaScript value is a number (a real or NaN), a
  string, a boolean, `undefined` or an `{x, y}` point. A spreadsheet row is an
  ordered list of key/value entries with JavaScript object semantics: the first
  key wins on read, and writing a key that exists updates it in place
  (`js_values.dfy`, `strings.dfy`).
- **Chart builders.** The server's and the client's `buildChartData` are pure
  functions to a payload datatype. The model proves where the two agree and
  where they diverge (`payload.dfy`, `server_chart_builder.dfy`,
  `client_chart_builder.dfy`).
- **Database and routes.** The database is a `Store` class whose
  users/files/analyses collections the route methods update. The upload,
  listing, fetch, update and delete routes and the admin controller are methods
  on it. The read-only routes are functions (`database.dfy`,
  `files_route.dfy`, `analysis_route.dfy`, `history_controller.dfy`,
  `admin_controller.dfy`).
- **3-D components.** Each one is a method with the loops the component has:
  category aggregation, vertex and face construction, and bar placement. Each
  is proved against specification functions (`categories.dfy`, `pie3d.dfy`,
  `mesh3d.dfy`, `scatter3d.dfy`).
- **React pages.** A page with state updated by handlers is a class whose
  methods take the server's reply as a parameter. Rendering decisions are
  functions (`chart_page.dfy`, `chart_view.dfy`, `visualize.dfy`,
  `admin_page.dfy`, `register_page.dfy`, `login_page.dfy`, `file_card.dfy`,
  `auth_forms.dfy`).
- **Middleware and the user schema** (`authorize_role.dfy`,
  `verify_token.dfy`, `upload_filter.dfy`, `user_model.dfy`).

Some facts about the code that the model keeps:

- Neither chart builder sorts line charts or aggregates pie slices. Only the
  Chart page sorts, and only the 3-D pie component aggregates.
- The Mongoose schemas lack fields that the routes write. The analysis schema
  has no `file`, `rawData`, `availableColumns`, `chartData`, `zAxis` or
  `verified`, and the user schema has no `isActive`. The records here carry
  the fields the route and controller code reads and writes; "## Left out"
  lists what Mongoose's strict mode would do instead.
- The Chart page reads the analysis' `chartData` as an array of rows. The
  server stores a payload object there. The model gives the page rows.
- The Visualize page saves through `PUT /api/files/:id/chart`. The files
  router has no such route, so the reply to the save is a parameter.
- The Admin page flips an upload's flag with `PATCH
  /api/admin/uploads/:id/verify` (client/src/Admin/Admin.jsx:73-77). The
  admin router (server/routes/adminRoutes.js:23-33) has no such route. The
  reply is the parameter `requestOk` of `AdminPage.Page.ToggleVerify`.
- The Admin page deletes an upload with `DELETE
  /api/admin/uploads/:uploadId`. The router sends that path to
  `deleteUserFiles` (server/routes/adminRoutes.js:33), which runs
  `deleteMany({user: uploadId})`. That deletes nothing and still replies
  200, so `AdminPage.Page.DeleteUpload` drops an upload from the page that
  the database keeps (`AdminController.DeleteUserFiles`).
- The Admin page reads `u._id` and `f.user?._id`
  (client/src/Admin/Admin.jsx:58-59,161). The user record's JSON transform
  (server/models/user.js:33-38) replaces `_id` with `id`. `AdminPage.AdminUser.id`
  stands for that field, which the page reads as `undefined`.
- The files routes and the history controller read the requester as
  `req.user._id` (server/routes/files.js:16,52,58,84-85,110,129,134,146;
  server/controllers/historyController.js:9), while the analysis routes
  read `req.user.id`. The issued token carries only `{id}`
  (server/utils/generateToken.js:14), and `verifyToken` passes the decoded
  payload on as the user (`VerifyToken.IssuedPayloadLacksIdAndRole`). So
  with any token the server issues, upload always answers 401 "User ID
  missing from token", which the 401 ensures of `FilesRoute.UploadFile`
  shows through `Get(tokenUser, "_id")`. The `user` parameter of
  `FilesRoute.ListFiles`, `FilesRoute.FetchAnalysis`, `FilesRoute.DeleteFile`
  and `HistoryController.GetUserHistory` is `req.user._id`, a value such
  tokens never supply: against this server those routes query with an
  undefined owner.
- For the same reason, `authorizeRole('admin')`
  (server/middleware/authorizeRole.js:4-9) finds no role and answers 403 to
  every token the server issues (`AuthorizeRole.MissingRoleDenied`).

## Model

| member | source | states |
|---|---|---|
| JsValues.Get | server/utils/chartBuilder.js:6-9 | reading `row[key]` yields the value of the first entry with that key, and `undefined` when the key is absent |
| JsValues.GetFirstMatch | server/utils/chartBuilder.js:6-9 | the first entry carrying the key decides what `row[key]` reads |
| JsValues.Put | client/src/components/ChartView.jsx:61-65 | an object literal's later key overwrites an earlier one: the written key reads back the new value, every other key is unchanged, and a new key is appended to the key order |
| JsValues.Delete | server/models/user.js:33-38 | after `delete ret[key]` the key is gone and every other key reads as before |
| JsValues.Nullish | server/utils/chartBuilder.js:6-9 | `v ?? d` is `d` exactly when `v` is missing |
| JsValues.IntegralNumberToString | server/utils/chartBuilder.js:6 | `String(n)` of a whole number is its decimal numeral |
| JsValues.NumberOfNumeral | server/utils/chartBuilder.js:7-8 | `Number` of a decimal numeral is its value (inverse of `String`) |
| JsValues.ParseIntOfNumeral | server/routes/files.js:80-81 | `parseInt` of a decimal numeral is its value |
| JsValues.ParseIntOfDigits | server/routes/files.js:80-81 | `parseInt` of a run of decimal digits is the digits' decimal value |
| JsValues.DecimalPrefixOfDigits | client/src/pages/Chart.jsx:101-103 | the longest numeric prefix that `parseFloat` reads from a run of digits is the whole run, with its decimal value |
| JsValues.ParseIntOr | server/routes/files.js:80-81 | `parseInt(q) \|\| d` is `d` for an absent, unparsable or zero query and the parsed number otherwise; never 0 when `d` is not |
| JsValues.AddNumbers | client/src/pages/Visualize.jsx:108 | a sum is NaN exactly when an operand is NaN |
| JsValues.JsAdd | client/src/pages/Visualize.jsx:107-108 | `+` adds two numbers and concatenates as soon as either side is a string or an object |
| JsValues.At | client/src/components/ChartView.jsx:63-64 | `xs[i]` is the element in range and `undefined` past the end |
| Strings.TrimIdempotent | server/models/user.js:7-18 | trimming a trimmed string changes nothing |
| Strings.TrimStart | client/src/pages/Chart.jsx:29 | the leading whitespace, and only it, is removed |
| Strings.TrimEnd | client/src/pages/Chart.jsx:29 | the trailing whitespace, and only it, is removed |
| Strings.TrimIsSlice | server/models/user.js:7-18 | the trim of a string is the slice after its leading white space, with only white space around it |
| Strings.ToLowerIdempotent | server/middleware/authorizeRole.js:4-5 | lower-casing twice equals lower-casing once |
| Strings.SplitSpaceAfterWord | server/middleware/verifyToken.js:10 | splitting `w + " " + rest` on spaces gives `w` followed by the pieces of `rest` |
| Strings.DecimalRoundTrip | server/middleware/upload.js:11-14 | the decimal numeral of a number reads back as that number |
| Strings.HexRoundTrip | server/controllers/historyController.js:26 | a k-digit hexadecimal numeral reads back as the number it spells |
| ChartPayload.LabelColumn | server/utils/chartBuilder.js:6 | one label per row: `String(row[xKey] ?? "")` |
| ChartPayload.NumberColumn | server/utils/chartBuilder.js:7-9 | one number per row: `Number(row[key] ?? 0)` |
| ChartPayload.MissingCellDefaults | server/utils/chartBuilder.js:6-8 | a row without the key contributes the label "" and the number 0 |
| ChartPayload.NumericCellKept | server/utils/chartBuilder.js:7-8 | a numeric cell passes through `Number` unchanged |
| ChartPayload.PieHues | server/utils/chartBuilder.js:57-69 | slice i gets the hue (i·40) mod 360, always within [0, 360) |
| ServerChartBuilder.Build | server/utils/chartBuilder.js:3-4 | the result is null exactly when the data is missing or the x or y key is empty; otherwise its type is the requested one |
| ServerChartBuilder.ThreeDColumnsPerRow | server/utils/chartBuilder.js:14-40 | the 3-D types give one x, y and label per row, and one z per row when a z key is given |
| ServerChartBuilder.BarThreeDZeroDepth | server/utils/chartBuilder.js:33-40 | `bar-3d` replaces every z value by 0 |
| ServerChartBuilder.ThreeDKeepsZ | server/utils/chartBuilder.js:14-31 | `scatter3d` and `line-3d` keep the z column as read |
| ServerChartBuilder.ScatterOnePointPerRow | server/utils/chartBuilder.js:42-55 | `scatter` gives one dataset with one {x, y} point per row and no labels |
| ServerChartBuilder.PieOneSlicePerRow | server/utils/chartBuilder.js:57-69 | `pie` gives one slice per row, without aggregation, labelled and coloured by position |
| ServerChartBuilder.BarOneValuePerRow | server/utils/chartBuilder.js:71-84 | `bar`, the default shape, gives one label and one value per row in row order, nothing grouped, in one dataset named "y vs x" |
| ServerChartBuilder.UnknownTypeIsBar | server/utils/chartBuilder.js:71-86 | an unknown type is built as a bar chart carrying the requested type |
| ServerChartBuilder.LineIsBar | server/utils/chartBuilder.js:71-86 | `line` is the bar payload under another type, labelled "y vs x", unsorted |
| ClientChartBuilder.Build | client/src/utils/ChartBuilder.js:3-4 | missing data or an empty key gives null; a result has the requested type |
| ClientChartBuilder.NullIff | client/src/utils/ChartBuilder.js:94-95 | the client returns null exactly for missing data, an empty key or a type it does not know |
| ClientChartBuilder.ThreeDKeepsZ | client/src/utils/ChartBuilder.js:14-41 | every client 3-D type, `bar-3d` included, keeps x, y, z and labels as read |
| ClientChartBuilder.PieThreeDIsPie | client/src/utils/ChartBuilder.js:43-53 | `pie-3d` is the `pie` payload under another type |
| ClientChartBuilder.LineIsBar | client/src/utils/ChartBuilder.js:80-92 | `line` is the bar payload under another type |
| ClientChartBuilder.AgreesWithServer | client/src/utils/ChartBuilder.js:14-92 | for bar, line, pie, scatter, scatter3d and line-3d the client builds exactly what the server builds |
| ClientChartBuilder.BarThreeDDiverges | client/src/utils/ChartBuilder.js:34-41 | on `bar-3d` the client keeps z where the server zeroes it |
| ClientChartBuilder.ThreeDScatterDiverges | client/src/utils/ChartBuilder.js:14-23 | the alias `3d-scatter` is a 3-D chart on the client and a bar chart on the server |
| Database.Store.constructor | server/routes/files.js:13-75 | an empty database has no users, files or analyses |
| Database.Filter | server/routes/files.js:84-85 | a query keeps exactly the documents that match it |
| Database.FilterIsSubsequence | server/routes/files.js:85-88 | a query result keeps insertion order |
| Database.FirstIndex | server/routes/files.js:129 | `findOne` finds the first matching document, or reports that none matches |
| Database.FindAnalysis | server/routes/analysisRoutes.js:136-140 | `findOne({file, user})` gives the first analysis of that file owned by the requester, or none exists |
| Database.RemoveAt | server/routes/files.js:129 | removing one document shifts the later ones down by one and keeps the earlier ones |
| Database.Reverse | server/routes/files.js:86 | `sort({createdAt: -1})` lists the newest document first |
| Database.PageOfReverseIn | server/routes/files.js:85-88 | a page of the newest-first list holds only records of the list |
| Database.Page | server/routes/files.js:82-88 | `skip(s).limit(l)` is the slice of at most l documents starting at s |
| Database.CeilDiv | server/routes/files.js:94 | `Math.ceil(a / b)` is the least r with a ≤ r·b |
| Database.PagesTile | server/routes/files.js:82-88 | one page followed by the rest reassembles the list from the skip on |
| FilesRoute.NumericKeys | server/routes/files.js:26-28 | the columns whose every cell is a number, and only those |
| FilesRoute.NumericKeysInOrder | server/routes/files.js:26-28 | numeric columns keep the sheet's column order |
| FilesRoute.UploadChart | server/routes/files.js:30-46 | a chart exists exactly when two numeric columns exist; the request's axes win over the first two numeric columns; raw labels and values, legend "y vs x" |
| FilesRoute.DefaultUploadChartIsNumeric | server/routes/files.js:30-46 | without requested axes, every label and value of the upload chart is a number |
| FilesRoute.UploadFile | server/routes/files.js:13-75 | each error (no file, no user id, unreadable sheet, empty sheet) leaves the database unchanged; success appends one file and one analysis with chart type "bar" |
| FilesRoute.OwnedBy | server/routes/files.js:84-85 | the files whose owner is the requester |
| FilesRoute.ListFiles | server/routes/files.js:78-100 | a negative skip fails with 500; otherwise the counts are the owner's, totalPages is the ceiling, and the files sent are exactly the owner's files newest first from the skip on, at most `limit` of them |
| FilesRoute.ListingRequest | server/routes/files.js:80-81 | page and limit are never 0, and default to 1 and 10 |
| FilesRoute.ListingDefaults | server/routes/files.js:80-88 | without query parameters the reply is the owner's ten newest files |
| FilesRoute.TotalPagesCoverFiles | server/routes/files.js:94 | totalPages pages of `limit` files hold all files, and one page fewer does not |
| FilesRoute.FetchAnalysis | server/routes/files.js:103-119 | a malformed id gives 400 and no match gives 404; a well-formed id with a match gives 200 and the requester's first analysis of that file |
| FilesRoute.KeptAfterFileDelete | server/routes/files.js:134 | the cascade removes exactly the requester's analyses of that file |
| FilesRoute.DeleteFile | server/routes/files.js:122-141 | a malformed id gives 400 and an unknown or foreign file gives 404, both without change; otherwise the first owned match and its analyses go |
| FilesRoute.FileDeleteCascadeIdempotent | server/routes/files.js:134 | after the cascade the analysis fetch fails, and a second cascade removes nothing |
| AnalysisRoute.Column | server/routes/analysisRoutes.js:32-36 | `columns[i] \|\| ""` |
| AnalysisRoute.DefaultChartIffTwoColumns | server/routes/analysisRoutes.js:32-36 | a default chart is built exactly when the first row has two non-empty column names |
| AnalysisRoute.DefaultChartShape | server/routes/analysisRoutes.js:32-56 | the default chart is a bar chart of the second column against the first |
| AnalysisRoute.UploadAnalysis | server/routes/analysisRoutes.js:23-69 | each error leaves the database unchanged; success stores the file and an analysis with the first two columns as axes |
| AnalysisRoute.Populate | server/routes/analysisRoutes.js:78 | `populate("file")` finds the referenced file or nothing |
| AnalysisRoute.Simplify | server/routes/analysisRoutes.js:83-91 | a history entry keeps id, chart type and date; its filename is the analysis', else the populated file's, else "Unnamed File"; its size and type are the file's when present and non-empty, else absent |
| AnalysisRoute.SimplifyAll | server/routes/analysisRoutes.js:83-91 | one entry per analysis, in order |
| AnalysisRoute.OwnAnalyses | server/routes/analysisRoutes.js:77 | the requester's analyses and no others |
| AnalysisRoute.History | server/routes/analysisRoutes.js:72-104 | page p holds the requester's analyses newest first from (p−1)·10, at most ten; hasMore iff p·10 < total; a page below 1 fails with 500 |
| AnalysisRoute.HasMoreIffNextPageNonEmpty | server/routes/analysisRoutes.js:98 | hasMore holds exactly when the next page is non-empty |
| AnalysisRoute.Shortcut | server/routes/analysisRoutes.js:114-121 | the shortcut entry: the analysis id and date, the populated file's id, a filename that is the analysis', else the file's, else "Unnamed File", and the file's size and type when present and non-empty |
| AnalysisRoute.RecentHistory | server/routes/analysisRoutes.js:107-127 | the shortcut lists the ten newest of the requester's analyses; each entry is page 1's entry of the paged history with the chart type removed |
| AnalysisRoute.Fetch | server/routes/analysisRoutes.js:130-156 | a malformed id gives 400 and no match 404; a well-formed id with a match gives 200 and a body whose eight fields (filename, data, chartType, columns, chartData, xAxis, yAxis, zAxis) are those of the requester's first analysis of that file, `data` being its rawData and `columns` its availableColumns; any body sent is the projection of an analysis of that file owned by the requester |
| AnalysisRoute.FetchProjectsFilesRoute | server/routes/analysisRoutes.js:142-151 | this fetch succeeds exactly when the files route's fetch does (server/routes/files.js:103-119), and sends the eight-field projection of the record that route sends whole |
| AnalysisRoute.PreviewOf | server/routes/analysisRoutes.js:159-175 | a preview exists exactly for a well-formed id with a match; it carries the analysis' filename, its column list and its first five raw rows; no match gives 404 |
| AnalysisRoute.AxesAccepted | server/routes/analysisRoutes.js:187-189 | every non-empty axis must name a column |
| AnalysisRoute.NoAxesAccepted | server/routes/analysisRoutes.js:187-189 | a request with no axes passes the check |
| AnalysisRoute.Updated | server/routes/analysisRoutes.js:191-196 | the update sets type and axes, rebuilds the chart from the raw rows, and keeps every other field |
| AnalysisRoute.UpdateChart | server/routes/analysisRoutes.js:178-203 | bad id, no match and invalid axes change nothing; otherwise the one analysis is replaced by its update |
| AnalysisRoute.UpdateIdempotent | server/routes/analysisRoutes.js:191-196 | applying the same update twice equals applying it once |
| AnalysisRoute.OtherFilesAnalyses | server/routes/analysisRoutes.js:212 | the analyses of every other file |
| AnalysisRoute.DeleteAnalysis | server/routes/analysisRoutes.js:206-218 | a valid id always succeeds; the requester's file goes if it exists, and every user's analyses of that file go |
| AnalysisRoute.NothingLeftToFetch | server/routes/analysisRoutes.js:206-218 | after the delete no user can fetch an analysis of that file |
| AnalysisRoute.DeletesMoreThanFilesRoute | server/routes/analysisRoutes.js:212 | this delete keeps no analysis the files route's delete would remove, and may remove other users' |
| Categories.Dedup | client/src/components/Plotly3DPie.jsx:23-28 | distinct values, the same set as the input, never longer |
| Categories.DedupFirstSeenOrder | client/src/components/Plotly3DPie.jsx:23-30 | distinct categories appear in order of first appearance |
| Categories.IndexIn | client/src/components/Plotly3DScatter.jsx:23 | the first position of a value |
| Categories.KeyIndex | client/src/components/ChartCanvas3DMesh.jsx:34-35 | `Object.fromEntries` keeps the last entry for a repeated key |
| Categories.Position | client/src/components/ChartCanvas3DMesh.jsx:34-35 | a category's map index points to a category with the same key string |
| Categories.PositionOfDistinct | client/src/components/ChartCanvas3DMesh.jsx:34-35 | when key strings are distinct, a category's index is its own position |
| Pie3D.KeysOf | client/src/components/Plotly3DPie.jsx:23-28 | one category key per row |
| Pie3D.ValuesOf | client/src/components/Plotly3DPie.jsx:23-28 | one value per row |
| Pie3D.AggregateHit | client/src/components/Plotly3DPie.jsx:24-28 | a row whose key already has a bucket adds its value to that bucket and leaves the categories alone |
| Pie3D.AggregateMiss | client/src/components/Plotly3DPie.jsx:24-28 | a row with a new key opens a bucket at the end holding its value |
| Pie3D.AddRow | client/src/components/Plotly3DPie.jsx:24-28 | one callback call keeps the categories in first-seen order and every bucket the sum of its rows, and adds the row's value to the total |
| Pie3D.SumAddAt | client/src/components/Plotly3DPie.jsx:23-28 | adding to one bucket adds to the total |
| Pie3D.AggregatePairs | client/src/components/Plotly3DPie.jsx:23-32 | categories in first-seen order, each with the sum of its rows, and the sum of all slices is the sum of all rows |
| Pie3D.Vertices | client/src/components/Plotly3DPie.jsx:50-59 | 2n+2 vertices: rim point j on the top ring at j and on the bottom ring at n+j, then the top and the bottom centre |
| Pie3D.Aggregate | client/src/components/Plotly3DPie.jsx:23-32 | the same for the rows' label and value columns |
| Pie3D.BuildVertices | client/src/components/Plotly3DPie.jsx:50-59 | the two loops build exactly the closed-form vertex list |
| Pie3D.Next | client/src/components/Plotly3DPie.jsx:62-81 | the next rim point wraps around |
| Pie3D.FaceI | client/src/components/Plotly3DPie.jsx:62-81 | the first corner of each triangle: a centre for the caps, a rim point for the sides |
| Pie3D.FaceJ | client/src/components/Plotly3DPie.jsx:62-81 | the second corner lies on the cap's own rim |
| Pie3D.FaceK | client/src/components/Plotly3DPie.jsx:62-81 | the third corner lies on the rim its triangle needs |
| Pie3D.AddTopFan | client/src/components/Plotly3DPie.jsx:63-68 | the first loop appends the n top-fan triangles |
| Pie3D.AddBottomFan | client/src/components/Plotly3DPie.jsx:69-74 | the second loop appends the n bottom-fan triangles |
| Pie3D.AddSides | client/src/components/Plotly3DPie.jsx:75-81 | the third loop appends the 2n side triangles |
| Pie3D.FacesI | client/src/components/Plotly3DPie.jsx:62-81 | the whole first-corner list, triangle by triangle |
| Pie3D.BuildFaces | client/src/components/Plotly3DPie.jsx:62-81 | 4n triangles: top cap, bottom cap, two per side quad |
| Pie3D.TrianglesProper | client/src/components/Plotly3DPie.jsx:62-81 | no triangle repeats a vertex |
| Pie3D.Hue | client/src/components/Plotly3DPie.jsx:90 | the slice hue lies in [0, 360) |
| Pie3D.SliceIsSlice | client/src/components/Plotly3DPie.jsx:41-120 | the drawn slice is a full wedge named after its category and value, with its label text |
| Pie3D.BuildSlice | client/src/components/Plotly3DPie.jsx:41-118 | one callback call draws exactly slice idx of n |
| Pie3D.DrawSlices | client/src/components/Plotly3DPie.jsx:41-120 | wedge and label p are those of category p |
| Pie3D.Render | client/src/components/Plotly3DPie.jsx:14-120 | no data shows the placeholder; otherwise one wedge and one label per category, carrying its sum |
| Mesh3D.Ticks | client/src/components/ChartCanvas3DMesh.jsx:111-125 | each axis tick is the map index of its category |
| Mesh3D.TicksAreIndices | client/src/components/ChartCanvas3DMesh.jsx:111-125 | with distinct key strings the ticks are 0, 1, 2, … |
| Mesh3D.CollidingKeysShareTick | client/src/components/ChartCanvas3DMesh.jsx:32-35 | the number 1 and the string "1" share one tick position |
| Mesh3D.MaxOf | client/src/components/ChartCanvas3DMesh.jsx:39 | `Math.max` of the heights |
| Mesh3D.MinOf | client/src/components/ChartCanvas3DMesh.jsx:40 | `Math.min` of the heights |
| Mesh3D.ScaleYProperties | client/src/components/ChartCanvas3DMesh.jsx:41-42 | heights map monotonically into [1, 10], min to 1 and max to 10, and pass through unscaled when all are equal |
| Mesh3D.BoxFacesOnSides | client/src/components/ChartCanvas3DMesh.jsx:63-73 | each of the twelve triangles has three distinct corners on one face of the box |
| Mesh3D.FaceLists | client/src/components/ChartCanvas3DMesh.jsx:63-73 | the i/j/k lists are the box triangles |
| Mesh3D.BarAtGeometry | client/src/components/ChartCanvas3DMesh.jsx:53-73 | a bar spans 0.7 in x and z around its centre, from the floor to its height, with the box triangles |
| Mesh3D.Heights | client/src/components/ChartCanvas3DMesh.jsx:38 | one height per row |
| Mesh3D.BarHue | client/src/components/ChartCanvas3DMesh.jsx:76-90 | the bar hue lies in [0, 360) |
| Mesh3D.PlacedBarOnTicks | client/src/components/ChartCanvas3DMesh.jsx:48-103 | a row's bar stands on its x and z ticks with its scaled height and legend name; the label floats 0.2 above it and shows the value |
| Mesh3D.DrawBars | client/src/components/ChartCanvas3DMesh.jsx:48-104 | bar and label p are those of row p |
| Mesh3D.Render | client/src/components/ChartCanvas3DMesh.jsx:19-125 | no data shows the placeholder; otherwise one placed bar and label per row and the category ticks on both axes |
| Scatter3D.Encoding | client/src/components/Plotly3DScatter.jsx:22-27 | each value is coded by the map index of its key string among the distinct values |
| Scatter3D.KeyMap | client/src/components/Plotly3DScatter.jsx:24-25 | the map holds every key, with the last index written for it |
| Scatter3D.EncodeCategories | client/src/components/Plotly3DScatter.jsx:22-27 | the loop computes the encoding |
| Scatter3D.EncodingSeparatesKeys | client/src/components/Plotly3DScatter.jsx:22-27 | two values get the same code exactly when their key strings agree |
| Scatter3D.EncodingFirstSeen | client/src/components/Plotly3DScatter.jsx:22-27 | with distinct key strings, codes are equal iff values are, and ordered by first appearance |
| Scatter3D.SafeZ | client/src/components/Plotly3DScatter.jsx:29-31 | no z gives zeros, numeric z is kept, other z is encoded; the result is always numeric |
| Scatter3D.HoverText | client/src/components/Plotly3DScatter.jsx:33-35 | one hover line per x value |
| Scatter3D.MissingZShowsNA | client/src/components/Plotly3DScatter.jsx:34 | a missing z shows "N/A" |
| Scatter3D.StyleFor | client/src/components/Plotly3DScatter.jsx:54-72 | only `line-3d` draws lines; markers are coloured by z |
| Scatter3D.Render | client/src/components/Plotly3DScatter.jsx:17-72 | no x or y shows the placeholder; otherwise the trace carries x, y, the safe z, the style and the hover text |
| ChartPage.AnalysisPath | client/src/pages/Chart.jsx:29-33 | a request is made exactly for an id of 24 characters after trimming, to the trimmed path |
| ChartPage.LoadError | client/src/pages/Chart.jsx:61-65 | the server's error, else the exception message, else a fallback; never empty |
| ChartPage.NormalizeChartType | client/src/pages/Chart.jsx:41-55 | the result is always one of the seven offered types, "bar" when none is given |
| ChartPage.ChartTypesLower | client/src/pages/Chart.jsx:9-17 | the offered types are lower-case |
| ChartPage.NormalizeIdempotent | client/src/pages/Chart.jsx:41-55 | normalising a normalised type changes nothing |
| ChartPage.NormalizeIgnoresCase | client/src/pages/Chart.jsx:49 | a type and its lower-case spelling normalise alike |
| ChartPage.NormalizeAliases | client/src/pages/Chart.jsx:42-47 | "3d-bar" and "scatter-3d" are aliases of the offered 3-D types |
| ChartPage.NormalizeLineThreeD | client/src/pages/Chart.jsx:50-54 | "line-3d", not offered, falls back to "bar" |
| ChartPage.Column | client/src/pages/Chart.jsx:101-103 | `parseFloat(p[key] ?? 0)` per point |
| ChartPage.SwapDown | client/src/pages/Chart.jsx:111-113 | one swap keeps the multiset of indices |
| ChartPage.Insert | client/src/pages/Chart.jsx:111-113 | one insertion step extends the sorted and stable prefix and keeps a permutation |
| ChartPage.SwapKeepsOrder | client/src/pages/Chart.jsx:111-113 | swapping an element below a neighbour it goes before keeps the sorted parts sorted |
| ChartPage.SwapKeepsStable | client/src/pages/Chart.jsx:111-113 | the same swap keeps every other pair in its relative place, and the moving index has passed only entries it goes before |
| ChartPage.InsertStart | client/src/pages/Chart.jsx:111-113 | before any swap, the loop's facts are those of the sorted, stable prefix |
| ChartPage.InsertStep | client/src/pages/Chart.jsx:111-113 | one swap keeps the insertion loop's invariant |
| ChartPage.InsertDone | client/src/pages/Chart.jsx:111-113 | when the moving index stops, the prefix has no adjacent inversion and is stable |
| ChartPage.SortOrder | client/src/pages/Chart.jsx:111-113 | the index order is a permutation with no adjacent pair in decreasing x order, and it is stable: two indices are out of row order only when the comparator puts the later one first |
| ChartPage.NoInversionSorted | client/src/pages/Chart.jsx:111-113 | with no NaN, that order sorts x ascending |
| ChartPage.Gather | client/src/pages/Chart.jsx:115-117 | the columns are read through the order |
| ChartPage.Labels | client/src/pages/Chart.jsx:120 | one `String(x)` label per x |
| ChartPage.BuildSeries | client/src/pages/Chart.jsx:93-120 | axes default to "X-Axis"/"Y-Axis"/"Z-Axis"; only line charts are reordered, by a stable permutation sorting x; the labels follow x |
| ChartPage.TriplesStayTogether | client/src/pages/Chart.jsx:115-117 | each reordered (x, y, z) triple comes from one input point |
| ChartView.Title | client/src/components/ChartView.jsx:42-50 | a title exists exactly for the seven offered types |
| ChartView.KindOf | client/src/components/ChartView.jsx:155-191 | exactly bar, line, pie and scatter map to a Chart.js component |
| ChartView.NonEmptyOr | client/src/components/ChartView.jsx:52-53 | `s \|\| d` is never empty and keeps a non-empty s |
| ChartView.MeshRow | client/src/components/ChartView.jsx:61-65 | the mesh row reads back x, y and z under their keys, a later key overwriting an earlier equal one |
| ChartView.PieRow | client/src/components/ChartView.jsx:82-85 | the pie row reads back label and value, the value winning on equal keys |
| ChartView.MeshRows | client/src/components/ChartView.jsx:61-65 | one mesh row per x value |
| ChartView.PieRows | client/src/components/ChartView.jsx:82-85 | one pie row per x value |
| ChartView.Render | client/src/components/ChartView.jsx:29-206 | 3-D types go to their component; a 2-D view without x or y shows "No data"; known types get Chart.js with the given or default dataset and axis titles except for pie; anything else is unsupported |
| ChartView.NormalizedTypesRender | client/src/components/ChartView.jsx:155-206 | every type the Chart page normalises to is rendered, never "unsupported" |
| ChartView.MeshRowsRoundTrip | client/src/components/ChartView.jsx:61-65 | with distinct axis labels the mesh component reads back the columns it was given |
| ChartView.SharedPieKeyLosesLabel | client/src/components/ChartView.jsx:82-85 | equal axis labels collapse each pie row to the value alone |
| ChartView.PieKeysNonEmpty | client/src/components/ChartView.jsx:52-53 | the 3-D pie always gets non-empty keys |
| Visualize.FirstGiven | client/src/pages/Visualize.jsx:37-40 | `a \|\| b \|\| ""` |
| Visualize.ColumnAt | client/src/pages/Visualize.jsx:38-39 | `availableColumns?.[i]` |
| Visualize.RequiredAxes | client/src/pages/Visualize.jsx:49 | a 3-D type requires x, y and z, any other x and y |
| Visualize.AxesValid | client/src/pages/Visualize.jsx:49-52 | every required axis names a column |
| Visualize.ThreeDSelectionPassesServer | client/src/pages/Visualize.jsx:49-52 | a 3-D selection the page accepts the server accepts |
| Visualize.StaleZPassesPageOnly | client/src/pages/Visualize.jsx:49-52 | a stale z on a 2-D type passes the page and is refused by the server |
| Visualize.NoColumnsNoSave | client/src/pages/Visualize.jsx:50-52 | without columns nothing can be saved |
| Visualize.DisplayX | client/src/pages/Visualize.jsx:189 | x is the payload's x, else its labels, else empty |
| Visualize.DisplayY | client/src/pages/Visualize.jsx:190 | y is the payload's y, else the first dataset's data, else empty |
| Visualize.DisplayZ | client/src/pages/Visualize.jsx:191 | z is the payload's z, else empty |
| Visualize.InvalidConfigIff | client/src/pages/Visualize.jsx:291 | the "invalid configuration" notice shows exactly when the client builder returns null |
| Visualize.Reals | client/src/pages/Visualize.jsx:105-108 | the numeric values of an all-number column |
| Visualize.FirstMaxIndex | client/src/pages/Visualize.jsx:105 | the first index of the maximum |
| Visualize.FirstMinIndex | client/src/pages/Visualize.jsx:106 | the first index of the minimum |
| Visualize.TopIndex | client/src/pages/Visualize.jsx:105 | `indexOf(Math.max(...y))`: the first maximum, −1 when there is none |
| Visualize.LowIndex | client/src/pages/Visualize.jsx:106 | `indexOf(Math.min(...y))`: the first minimum, −1 when there is none |
| Visualize.Total | client/src/pages/Visualize.jsx:108 | the sum of an all-number column; a string anywhere turns the total into a string |
| Visualize.ZSelectorMeansZRequired | client/src/pages/Visualize.jsx:252 | the z selector is shown exactly for the types whose save requires z |
| Visualize.Page.constructor | client/src/pages/Visualize.jsx:11-17 | the initial state: no analysis, no error, type "bar", no axes |
| Visualize.Page.Load | client/src/pages/Visualize.jsx:19-43 | no id does nothing; no token sets the error; a loaded analysis sets type and axes from it with their defaults; a failure sets the error |
| Visualize.Page.SelectChartType | client/src/pages/Visualize.jsx:212-221 | only the chart type changes |
| Visualize.Page.SelectAxes | client/src/pages/Visualize.jsx:224-266 | only the axes change |
| Visualize.Page.Save | client/src/pages/Visualize.jsx:45-82 | no token or invalid axes alerts without sending; a sent save merges the reply's chart and the selection into the analysis, or alerts the failure |
| Visualize.Page.Shown | client/src/pages/Visualize.jsx:179-305 | select-file, error, loading, invalid-configuration and chart screens in that order; the z selector follows the type |
| Visualize.LineThreeDUnsupported | client/src/pages/Visualize.jsx:291-305 | `line-3d` builds a payload yet the chart view reports it unsupported |
| AdminController.Views | server/controllers/adminController.js:8 | one public view per user, in order |
| AdminController.Distinct | server/controllers/adminController.js:12 | the set of values in a list |
| AdminController.DistinctBound | server/controllers/adminController.js:12 | a list has no more distinct values than entries |
| AdminController.UploaderKeys | server/controllers/adminController.js:12 | one uploader key per upload |
| AdminController.GetDashboard | server/controllers/adminController.js:5-31 | totals count users and uploads, verified counts verified uploads, active counts distinct uploaders, and the five newest uploads come newest first |
| AdminController.StatsBounded | server/controllers/adminController.js:10-14 | verified and active counts never exceed the upload count |
| AdminController.FindUser | server/controllers/adminController.js:39 | finds the user with that id, or none has it |
| AdminController.DeactivateUser | server/controllers/adminController.js:34-47 | missing id 400, malformed 500, unknown 404, all without change; otherwise only that user's isActive becomes false |
| AdminController.DeleteUser | server/controllers/adminController.js:50-63 | the same error cases; otherwise only that user is removed and their uploads stay |
| AdminController.OthersAnalyses | server/controllers/adminController.js:71 | the analyses of every other user |
| AdminController.DeleteUserFiles | server/controllers/adminController.js:66-80 | every analysis of the user goes and the reply counts them |
| AdminController.UsersAnalyses | server/controllers/adminController.js:71-75 | the analyses of that user |
| AdminController.DeletedCountIsUsersAnalyses | server/controllers/adminController.js:71-75 | the deleted count equals the number of that user's analyses |
| AdminPage.WithoutUser | client/src/Admin/Admin.jsx:58 | the user list without that user, order kept |
| AdminPage.WithoutUploadsBy | client/src/Admin/Admin.jsx:59 | the upload list without that user's uploads, order kept |
| AdminPage.WithoutUpload | client/src/Admin/Admin.jsx:68 | the upload list without that upload, order kept |
| AdminPage.Toggled | client/src/Admin/Admin.jsx:78-80 | only the matching upload's verified flag changes, to the opposite of the shown value |
| AdminPage.ToggleBack | client/src/Admin/Admin.jsx:78-80 | toggling twice restores the list |
| AdminPage.NextPanel | client/src/Admin/Admin.jsx:83-84 | clicking the open panel closes it; another panel opens |
| AdminPage.PanelClickTwice | client/src/Admin/Admin.jsx:83-84 | two clicks on a closed panel close it again |
| AdminPage.DeletedUserLeavesNoUploads | client/src/Admin/Admin.jsx:58-59 | after deleting a user none of their uploads is listed |
| AdminPage.Page.constructor | client/src/Admin/Admin.jsx:15-20 | the initial state: empty lists, users panel, loading |
| AdminPage.Page.Mount | client/src/Admin/Admin.jsx:23-45 | without a token or the admin role the page redirects to /login; otherwise it loads the lists or the error and stops loading |
| AdminPage.Page.DeleteUser | client/src/Admin/Admin.jsx:52-60 | a confirmed, successful delete drops the user and their uploads from the lists |
| AdminPage.Page.DeleteUpload | client/src/Admin/Admin.jsx:62-69 | a confirmed, successful delete drops the upload |
| AdminPage.Page.ToggleVerify | client/src/Admin/Admin.jsx:71-81 | a successful toggle flips that upload's flag |
| AdminPage.Page.TogglePanel | client/src/Admin/Admin.jsx:83-84 | only the open panel changes |
| HistoryController.BuildQuery | server/controllers/historyController.js:9-11 | the query is the user's, plus the chart type and filename filters exactly when given |
| HistoryController.UnfilteredQueryIsOwner | server/controllers/historyController.js:9 | without filters the query matches exactly the user's analyses |
| HistoryController.UploadedAt | server/controllers/historyController.js:24-28 | the stored date when present |
| HistoryController.UploadedAtFromObjectId | server/controllers/historyController.js:24-28 | without a stored date, the upload time is the id's leading 8 hex digits as seconds, in milliseconds |
| HistoryController.FileIdOf | server/controllers/historyController.js:32 | the populated file's id, else the stored reference, else null |
| HistoryController.Summarise | server/controllers/historyController.js:30-41 | an entry keeps id, filename, type, columns, axes and date; size and type are the populated file's, and absent when the file is not populated |
| HistoryController.PopulateFile | server/controllers/historyController.js:18 | populating finds the file or nothing |
| HistoryController.SummariseAll | server/controllers/historyController.js:23-42 | one entry per analysis, in order |
| HistoryController.Selected | server/controllers/historyController.js:14 | the analyses matching the query and no others |
| HistoryController.GetUserHistory | server/controllers/historyController.js:3-57 | page p holds the matching analyses newest first from (p−1)·10, total counts all matches, hasMore iff p·10 < total; a page below 1 fails with 500 |
| HistoryController.PageEntriesAreOwn | server/controllers/historyController.js:9-17 | every listed analysis belongs to the requester |
| AuthorizeRole.LowerAll | server/middleware/authorizeRole.js:5 | every allowed role lower-cased |
| AuthorizeRole.Authorize | server/middleware/authorizeRole.js:1-15 | the request passes exactly when a non-empty role equals an allowed role ignoring case; otherwise 403 |
| AuthorizeRole.RoleCaseIgnored | server/middleware/authorizeRole.js:4 | the user's role is compared ignoring case |
| AuthorizeRole.AllowedCaseIgnored | server/middleware/authorizeRole.js:5 | the allowed roles are compared ignoring case |
| AuthorizeRole.MissingRoleDenied | server/middleware/authorizeRole.js:7-9 | no role, or no allowed roles, is refused with 403 |
| AuthorizeRole.AdminPassesCapitalised | server/middleware/authorizeRole.js:4-12 | a route allowing "Admin" admits the role "admin" |
| VerifyToken.BearerToken | server/middleware/verifyToken.js:10 | the token is the first space-free piece after "Bearer " |
| VerifyToken.HeaderRoundTrip | server/middleware/verifyToken.js:6-10 | a token without spaces sent as "Bearer token" is read back unchanged |
| VerifyToken.DoubleSpaceEmptyToken | server/middleware/verifyToken.js:10 | two spaces after "Bearer" yield the empty token |
| VerifyToken.Request.constructor | server/middleware/verifyToken.js:3-4 | a request starts with its header and no user |
| VerifyToken.Check | server/middleware/verifyToken.js:3-18 | no bearer header gives 403 without change; a token that fails verification gives 401; a verified token attaches its payload as the user |
| VerifyToken.IssuedPayloadLacksIdAndRole | server/utils/generateToken.js:14 | the payload of a server-issued token has the user id under `id` but no `_id` and no `role`, and the role check refuses a user without a role |
| VerifyToken.LowercaseBearerRefused | server/middleware/verifyToken.js:6 | the scheme is case-sensitive: "bearer " is refused |
| UploadFilter.LastIndexOf | server/middleware/upload.js:19 | the last occurrence of a character, or none |
| UploadFilter.LastDotAt | server/middleware/upload.js:19 | a dot with no dot after it is the one `extname` finds |
| UploadFilter.Extname | server/middleware/upload.js:19 | the extension is the suffix from the last dot, if that dot is not the first character |
| UploadFilter.ExtnameOf | server/middleware/upload.js:19 | the extension of "base.ext" is ".ext" |
| UploadFilter.AcceptedIff | server/middleware/upload.js:17-21 | a file is accepted exactly when its extension, lower-cased, is .xls or .xlsx |
| UploadFilter.UpperCaseAccepted | server/middleware/upload.js:19-20 | "REPORT.XLSX" is accepted |
| UploadFilter.LastSuffixCounts | server/middleware/upload.js:19-20 | only the last suffix decides: "a.csv.xlsx" is accepted |
| UploadFilter.EarlierSuffixIgnored | server/middleware/upload.js:19-20 | "a.xlsx.csv" is refused |
| UploadFilter.NoExtensionRefused | server/middleware/upload.js:19-20 | a dot file ".xlsx" and a bare "xlsx" are refused |
| UploadFilter.StoredName | server/middleware/upload.js:11-14 | the stored name is the timestamp, a dash and the original name |
| UploadFilter.StoredNameTimestamp | server/middleware/upload.js:11-14 | the timestamp reads back from the stored name |
| UserModel.RoleOf | server/models/user.js:23-27 | the role defaults to "user"; only user, analyst and admin are valid |
| UserModel.RoleNameRoundTrip | server/models/user.js:23-27 | every role's name is accepted as that role |
| UserModel.NormalizeEmail | server/models/user.js:12-18 | the stored email is the lower-cased input with the white space around it removed: a slice of it, with only white space before and after; it neither starts nor ends with white space and holds no ASCII capital |
| UserModel.NormalizeName | server/models/user.js:7-11 | the stored name is the input with the white space around it removed: a slice of it, with only white space before and after, that neither starts nor ends with white space |
| UserModel.NormalizeIdempotent | server/models/user.js:7-18 | normalising a normalised name or email changes nothing |
| UserModel.FailedPaths | server/models/user.js:7-27 | validation fails exactly when some path fails, and lists exactly the failing paths |
| UserModel.NewUser | server/models/user.js:7-27 | a user is created exactly when name, email and password are present and the role is valid; otherwise each failing path is reported |
| UserModel.Scrubbed | server/models/user.js:33-38 | `id` takes `_id`'s value; `_id`, `__v` and `password` go; every other field stays |
| UserModel.JsonObject.constructor | server/models/user.js:31-39 | an object holds the given properties |
| UserModel.Transform | server/models/user.js:33-38 | the transform rewrites the object in place into its scrubbed form |
| UserModel.NoPasswordInJson | server/models/user.js:36-37 | the serialised user has no password |
| UserModel.UserDocument.constructor | server/models/user.js:44-53 | a document holds its password and modified flag |
| UserModel.UserDocument.PreSave | server/models/user.js:44-53 | an unmodified password is left alone; a modified one is replaced by its hash |
| AuthForms.ValidEmailIff | client/src/pages/Register.jsx:28 | the check is the regular expression `\S+@\S+\.\S+` searched anywhere in the string |
| AuthForms.EmailExamples | client/src/pages/Register.jsx:28 | "a@b.c" and text around it pass; "a@b" and "ab.c" fail |
| AuthForms.HomeFor | client/src/pages/Register.jsx:53-57 | admins land on /admin-dashboard and everyone else on /dashboard |
| AuthForms.FirstMessage | client/src/pages/Register.jsx:59-63 | the server's error, else the exception message, else the fallback |
| RegisterPage.Page.constructor | client/src/pages/Register.jsx:6-14 | the empty form with role "user" |
| RegisterPage.Page.Submit | client/src/pages/Register.jsx:18-67 | mismatched passwords and a bad email are reported in that order without a request; otherwise the lower-cased role is sent and the reply stores the token and role and navigates, or alerts |
| RegisterPage.AdminLandsOnAdminDashboard | client/src/pages/Register.jsx:53-57 | only the exact role "admin" lands on the admin dashboard |
| LoginPage.Page.constructor | client/src/pages/Login.jsx:6-10 | the empty form with role "user" |
| LoginPage.Page.Submit | client/src/pages/Login.jsx:14-48 | a bad email is reported without a request; otherwise the reply stores the token and role and navigates, or sets the error; loading always ends false |
| LoginPage.BlankAddressRefused | client/src/pages/Login.jsx:19-23 | a blank address never reaches the server |
| FileCard.SizeOf | client/src/components/FileCard.jsx:6-9 | sizes of at least 1 MiB are shown in MB, smaller ones in KB |
| FileCard.FileType | client/src/components/FileCard.jsx:11-14 | a MIME type containing "spreadsheet" or "excel" is shown as Excel, a missing one as "Unknown", any other as itself |
| FileCard.DisplayName | client/src/components/FileCard.jsx:19 | the filename, else "Unnamed File" |
| FileCard.AnalysisLink | client/src/components/FileCard.jsx:29 | the link goes to the file's analytics page |
| FileCard.DeleteClick | client/src/components/FileCard.jsx:35-41 | the delete callback runs, with the file id, exactly when the user confirms |
| FileCard.SpreadsheetTypes | client/src/components/FileCard.jsx:11-14 | the two Excel MIME types are shown as Excel |
| FileCard.UpperCaseTypeNotRecognised | client/src/components/FileCard.jsx:11-14 | the match is case-sensitive: "EXCEL" is shown as is |

## Left out

- Reading workbooks (the xlsx library) is left out. The parsed first sheet is a parameter: `None` when parsing throws, a list of rows otherwise.
- Password hashing (bcrypt), JWT signing and verification, and `Date.now` are left out. Each is a parameter: a hash function, a verify function and a timestamp.
- Ids of new documents are parameters. The database's id generation is not modelled.
- The history controller's filename filter is a case-insensitive `RegExp` built from user input. It is a parameter predicate, because regular expressions are not modelled.
- The `/download` route of files.js, the `/export` route of analysisRoutes.js and the Visualize page's PDF export are left out. They stream files or draw to a canvas, and none of that is modelled.
- The fetch calls, `localStorage`, `alert`, `confirm` and navigation are left out as effects. The page models record them as a list of effects, or take their outcome as a parameter.
- IEEE-754 doubles are not modelled. Numbers are reals plus NaN, with no infinities, no -0 and no exponent or hex literals in `Number()`/`parseFloat`.
- `Number.prototype.toString` is modelled only for whole numbers. Fractions are written with a bounded digit count, not with JavaScript's shortest round-trip rule.
- `toFixed` rounding (the file card's sizes and the PDF average) is not modelled. FileCard.SizeOf returns the exact quotient and its unit.
- The cosine and sine geometry of the 3-D pie and the mesh coordinates is not modelled. The models keep vertex and face indices, heights, hues and labels.
- Chart.js, Plotly and three.js drawing is left out. Each view ends at the data it hands to the library.
- ChartPage.SortOrder: V8's `Array.prototype.sort` is not modelled. The model sorts by insertion with the same comparator, so NaN compares as "not before". The proof covers the permutation, the absence of adjacent inversions and stability, not V8's exact order when NaN makes the comparator inconsistent.
- Pie3D.AggregatePairs: categories come in first-seen order. `Object.keys` lists integer-like keys (such as years) first in ascending order, and that ordering is not modelled.
- Pie3D.Aggregate: the same first-seen category order as AggregatePairs, not the integer-keys-first order of `Object.keys`.
- Pie3D.Render: wedges and labels follow the first-seen category order. With integer-like category names the component draws them in `Object.keys` order, which is not modelled.
- Visualize.LowIndex: returns −1 for a column holding any non-number, as TopIndex does. JavaScript would coerce numeric strings in `Math.min` and could find them.
- UserModel.NormalizeEmail: lower-cases ASCII letters only. Mongoose's `lowercase: true` calls `toLowerCase`, which folds every Unicode capital.
- Strings.ToLower folds ASCII only. The same gap applies to ChartPage.NormalizeChartType, AuthorizeRole.Authorize, UploadFilter.AcceptedIff and RegisterPage.Page.Submit.
- JsValues.Value has a single `Undefined` for both `null` and `undefined`. `String(null)` is "null", so a null cell's key differs from the model's "undefined" in Pie3D.KeysOf, Mesh3D.Ticks, Mesh3D.PlacedBarOnTicks and Scatter3D.Encoding. `??` and `||` treat the two alike, so the chart builders are unaffected.
- Database.Reverse: `sort({createdAt: -1})` is modelled as reversed insertion order. That holds only when createdAt strictly increases with insertion. Ties and clock skew are not modelled in AnalysisRoute.History, AnalysisRoute.RecentHistory, FilesRoute.ListFiles, AdminController.GetDashboard or HistoryController.GetUserHistory.
- Visualize.TopIndex: returns −1 for a column holding any non-number. JavaScript would coerce numeric strings and could yield NaN and then −1.
- Visualize.Total: a column mixing numbers with booleans or `undefined` is not given a value beyond "some value". Only all-number columns and columns containing a string are pinned down.
- AdminPage.Page.Mount: the dashboard's statistics are not kept as page state. Only the user and upload lists, the error, the loading flag and the redirect are modelled.
- Register and Login "role" selectors and the form inputs' change handlers are plain field writes and are not modelled as methods.
- FilesRoute.UploadFile, FilesRoute.FetchAnalysis, AnalysisRoute.UploadAnalysis, AnalysisRoute.History, AnalysisRoute.RecentHistory, AnalysisRoute.Fetch, AnalysisRoute.PreviewOf, AnalysisRoute.UpdateChart, AnalysisRoute.DeleteAnalysis, AdminController.DeactivateUser, AdminController.GetDashboard and HistoryController.GetUserHistory: Mongoose's strict mode is not modelled. The model stores and reads every field the code writes, while strict mode drops fields the schema lacks. Under strict mode: `Analysis.create` would store none of `file`, `rawData`, `availableColumns` and `chartData` (server/routes/files.js:56-64); `findByIdAndUpdate(id, {isActive: false})` would reply 200 and change nothing (server/controllers/adminController.js:39); `uploads.filter(f => f.verified)` would always count 0 (server/controllers/adminController.js:12); `populate("file")` throws under `strictPopulate` from Mongoose 6 on (server/routes/analysisRoutes.js:78,110; server/controllers/historyController.js:18); and whether `findOne({file: id, ...})` matches anything depends on `strictQuery` (server/routes/files.js:110; server/routes/analysisRoutes.js:136-139).
- Concurrency is not modelled: the `Promise.all` in the history controller and the interleaving of client requests. Each operation runs atomically.
- Mongoose validation errors other than those named above are not modelled, and the catch-all 500 replies are modelled only where an input triggers them (a negative skip, an invalid ObjectId passed to a query).
