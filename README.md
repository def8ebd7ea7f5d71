# SpaceX launch dashboard: the chart callbacks, modelled in Dafny

The dashboard loads a table of launch records. It offers a site dropdown
and a payload slider, and it redraws two charts whenever they change:

- a success pie, from `get_pie_chart(selected_site)`;
- a payload/outcome scatter, from `get_scatter_chart(selected_site, payload_range)`.

This project models those two callbacks, their nested helpers and the
global payload bounds. Each one is a pure Dafny function of the table,
given as a `seq<Record>`, and the filter state. The plotly figures become
an abstract `Chart` value that records the title, the slices or points,
the slice colour map and the x-axis range.

Files:

- `wrappers.dfy`: `Option`, used for the dropdown value and for statistics of an empty column.
- `launch_data.dfy`: the `Record` row type and the pandas operations the callbacks use.
  It covers column-equality masks (`Select`), row counts, `groupby('Launch Site').size()`
  (`GroupBySite`) and the payload maximum and minimum. Counts are specified against
  a reference definition, `Rows`, which is the set of row indices a mask holds for.
- `charts.dfy`: the `Chart` description (`Pie` or `Scatter`) and its parts.
- `dashboard.dfy`: the two callbacks `PieChart` and `ScatterChart`, their helpers, and the lemmas about them.

Selection values follow `if not selected_site`. `None` and `""` both mean
unset. `"All Sites"` is the aggregate sentinel. Any other string is a
specific site, whether or not it occurs in the table.

Three behaviours of the code are worth stating on their own:

- The code keeps only the successes before grouping, so a site with no success gets no slice
  (`AllSitesPieSlices`).
- The code counts `class == 1` and `class == 0` separately, so the two site slices add up to the
  site's launch count only when every class at the site is 0 or 1 (`SitePieCoversSite`).
- For a site with no rows, the pie shows a no-data placeholder, while the scatter keeps its site
  title and has no points (`UnknownSiteCharts`).

## Model

| member | source | states |
|---|---|---|
| LaunchData.Select | spacex_dash_app.py:71 | `df[df[col] == v]` is never longer than the table |
| LaunchData.SelectMembers | spacex_dash_app.py:71 | a row is in the masked table exactly when it is in the table and matches the mask |
| LaunchData.SelectAppend | spacex_dash_app.py:124 | masking a concatenation masks each part, so each row is kept or dropped on its own and the kept rows stay in table order |
| LaunchData.SelectCount | spacex_dash_app.py:76 | `.shape[0]` of a masked table equals the number of row indices where the mask holds |
| LaunchData.SelectTwiceCount | spacex_dash_app.py:76-78 | the size of a mask applied to a masked table equals the number of rows where both masks hold |
| LaunchData.OutcomesPartitionSite | spacex_dash_app.py:76-78 | if every class at a site is 0 or 1, the site's successes plus its failures equal all of its rows |
| LaunchData.MaxPayload | spacex_dash_app.py:13 | the maximum is absent exactly on an empty table; otherwise it bounds every payload and some row has it |
| LaunchData.MinPayload | spacex_dash_app.py:14 | the minimum is absent exactly on an empty table; otherwise it is at most every payload and some row has it |
| LaunchData.PayloadBoundsOrdered | spacex_dash_app.py:13-14 | on a non-empty table both bounds exist and `min_payload <= max_payload` |
| LaunchData.OtherSites | spacex_dash_app.py:91 | not a source operation: the partition step inside `GroupBySite`'s model of `groupby`. Removing one site's rows leaves every other site's rows unchanged and none of that site's rows, and it shortens the table by that site's row count |
| LaunchData.GroupBySite | spacex_dash_app.py:91 | `groupby('Launch Site').size()` gives distinct keys; each group's size is that site's positive row count; a site has a group exactly when it has a row; the sizes add up to the row count |
| Dashboard.PlaceholderPie | spacex_dash_app.py:61-67 | `create_placeholder_pie_chart`: a pie titled by the message, with a single slice named by the message that makes up the whole pie, and default colours |
| Dashboard.SitePie | spacex_dash_app.py:69-86 | `create_site_pie_chart`: a site with no rows gives the `"No data available for " + site` placeholder; otherwise exactly `[Success, Failure]` valued by the site's class-1 and class-0 counts, coloured red and blue, titled `"Total Success Launches for " + site` |
| Dashboard.OverallPie | spacex_dash_app.py:88-97 | `create_overall_pie_chart`: the aggregate title with default colours, and no slice with a zero count; `AllSitesPieSlices` and `AllSitesPieTotal` state the rest |
| Dashboard.PieChart | spacex_dash_app.py:60-106 | always a pie. Unset: one slice `(prompt, 1)` titled with the prompt. `'All Sites'`: the aggregate title with default colours. Specific site with no rows: one slice `("No data available for " + site, 1)` with that title. Otherwise: exactly `[Success, Failure]`, valued by the site's class-1 and class-0 counts, coloured red and blue, titled `"Total Success Launches for " + site` |
| Dashboard.AllSitesPieSlices | spacex_dash_app.py:88-97 | with `'All Sites'`, slice names are distinct sites; each value is that site's number of class-1 rows and is positive; a site has a slice exactly when it has a success |
| Dashboard.AllSitesPieTotal | spacex_dash_app.py:90-96 | with `'All Sites'`, the slice values add up to the number of class-1 rows in the table |
| Dashboard.SitePieCoversSite | spacex_dash_app.py:76-82 | for a specific site that has rows, all with class 0 or 1, the two slices add up to the site's row count |
| Dashboard.PlaceholderScatter | spacex_dash_app.py:115-121 | `create_placeholder_scatter_chart`: a scatter titled by the message, whose one point has the message on both axes and no colour category, with no axis range |
| Dashboard.SiteScatter | spacex_dash_app.py:122-132 | `create_site_scatter_chart`: one point per row of the site, in table order (x = payload, y = class, colour = booster), as many as the site has rows, titled `"Payload vs. Success for " + site`, x-range = `payload_range` |
| Dashboard.OverallScatter | spacex_dash_app.py:133-143 | `create_overall_scatter_chart`: one point per row of the whole table, in order, with the same mapping, titled `"Payload vs. Success for All Sites"`, x-range = `payload_range` |
| Dashboard.ScatterChart | spacex_dash_app.py:114-149 | always a scatter. Unset: one point with x = y = prompt, titled with the prompt, no axis range. `'All Sites'`: one point per row, in order (x = payload, y = class, colour = booster), titled `"Payload vs. Success for All Sites"`, x-range = `payload_range`. Specific site: the same mapping over that site's rows in table order, as many points as the site has rows, titled `"Payload vs. Success for " + site`, x-range = `payload_range` |
| Dashboard.ScatterSeriesIgnoresRange | spacex_dash_app.py:122-143 | changing `payload_range` changes neither the title nor the series, only the axis |
| Dashboard.UnknownSiteCharts | spacex_dash_app.py:71-74 | a site with no rows gives the no-data placeholder pie (not an error), and a scatter with the site's title and an empty series rather than a placeholder (lines 122-132) |
| Dashboard.ExampleSitePie | spacex_dash_app.py:76-86 | on a table of two launches at A (one success, one failure) and one successful launch at B, with any payloads and boosters, site A's pie is `[Success 1, Failure 1]` |
| Dashboard.ExampleAllSitesPie | spacex_dash_app.py:88-97 | on the same table, the all-sites pie is `[A 1, B 1]` |
| Dashboard.ExampleUnknownSite | spacex_dash_app.py:73-74 | on the same table, site C gives the one-slice placeholder `"No data available for C"` |

Both callbacks are Dafny functions, so they are deterministic: two calls
with the same table and filter state return the same chart. Neither can
change the table.

## Left out

- CSV loading with `pd.read_csv` (line 10) is file I/O. The table is a parameter, and a load error is not modelled.
- The Dash app, its layout, the dropdown options and the RangeSlider constants 0/10000/1000 (lines 17-52) are UI scaffolding. Only the `'All Sites'` sentinel is kept.
- The `@app.callback` wiring (lines 56-59, 110-113) and `app.run_server()` (lines 154-155) are the framework's reactive dispatch and server.
- Plotly rendering is not modelled. `px.pie` and `px.scatter` become the `Chart` value; percentages and angles are not computed. Plotly splits a scatter into one trace per colour category; the model keeps one series in table order and tags each point with its category.
- The order of `groupby` keys is not modelled. pandas sorts them; `GroupBySite` lists them in order of first appearance. The contracts state only distinctness and the counts, which do not depend on the order.
- The debug `print` calls (lines 72, 77, 79) are console output only.
- Payload masses are modelled as integers. pandas reads them as floats. The code takes their maximum and minimum (lines 13-14) and plots them as the scatter's x values (lines 125 and 136). A fractional payload mass, and so a fractional x value of a scatter point, is not represented.
- LaunchData.MaxPayload and LaunchData.MinPayload: pandas returns NaN for the maximum and minimum of an empty column. The model returns `None` instead.
- `payload_range` is modelled as a pair of integers. The slider moves in integer steps of 1000 (line 47), but it starts at `[min_payload, max_payload]` (line 48), which are floats; a fractional starting range is not represented. The model does not require `lo <= hi`, because the code passes the value to the axis unchecked.
