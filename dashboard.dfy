/**
  The two callbacks of the launch dashboard: the success pie, driven by the
  site dropdown, and the payload/outcome scatter, driven by the site
  dropdown and the payload slider. Both are pure functions of the launch
  table and the filter state; neither changes the table.
 */
module Dashboard {
  import opened Wrappers
  import opened LaunchData
  import opened Charts

  /** The dropdown value that stands for every site at once. */
  const AllSites := "All Sites"

  /** The message both charts show while no site is selected. */
  const Prompt := "Please select a launch site from the dropdown menu"

  /** `not selected_site`: the dropdown holds no value, or the empty string. */
  predicate Unset(selected: Option<string>) {
    selected.None? || selected.value == ""
  }

  /** A dropdown value naming one site (which need not occur in the table). */
  predicate IsSpecificSite(selected: Option<string>) {
    !Unset(selected) && selected.value != AllSites
  }

  // ---------------------------------------------------------------------
  // The success pie
  // ---------------------------------------------------------------------

  /** A one-slice pie that carries a message instead of data. */
  function PlaceholderPie(message: string): (c: Chart)
    ensures c.Pie? && c.title == message && c.colors == map[]
    ensures Names(c.slices) == [message] && Sum(c.slices) == 1
  {
    Pie(message, [Slice(message, 1)], map[])
  }

  /** Success against failure at one site, or a no-data placeholder when the site has no rows. */
  function SitePie(ds: seq<Record>, site: string): (c: Chart)
    ensures c.Pie?
    ensures Rows(ds, SiteIs(site)) == {} ==>
      var message := "No data available for " + site;
      c.title == message && c.slices == [Slice(message, 1)] && c.colors == map[]
    ensures Rows(ds, SiteIs(site)) != {} ==>
      && c.title == "Total Success Launches for " + site
      && c.slices == [Slice("Success", |Rows(ds, SiteIs(site)) * Rows(ds, ClassIs(1))|),
                      Slice("Failure", |Rows(ds, SiteIs(site)) * Rows(ds, ClassIs(0))|)]
      && c.colors == map["Success" := "red", "Failure" := "blue"]
  {
    SelectCount(ds, SiteIs(site));
    SelectTwiceCount(ds, SiteIs(site), ClassIs(1));
    SelectTwiceCount(ds, SiteIs(site), ClassIs(0));
    var atSite := Select(ds, SiteIs(site));
    if atSite == [] then PlaceholderPie("No data available for " + site)
    else
      var successes := |Select(atSite, ClassIs(1))|;
      var failures := |Select(atSite, ClassIs(0))|;
      Pie("Total Success Launches for " + site,
          [Slice("Success", successes), Slice("Failure", failures)],
          map["Success" := "red", "Failure" := "blue"])
  }

  function SlicesOf(g: seq<Group>): seq<Slice> {
    seq(|g|, i requires 0 <= i < |g| => Slice(g[i].key, g[i].size))
  }

  /** The successful launches, counted per site; a site without a success gets no slice. */
  function OverallPie(ds: seq<Record>): (c: Chart)
    ensures c.Pie? && c.title == "Percentage of Successful Launches by Launch Site" && c.colors == map[]
    ensures forall i :: 0 <= i < |c.slices| ==> c.slices[i].value > 0
  {
    var successes := Select(ds, ClassIs(1));
    Pie("Percentage of Successful Launches by Launch Site", SlicesOf(GroupBySite(successes)), map[])
  }

  /** The pie callback, `get_pie_chart(selected_site)`. */
  function PieChart(ds: seq<Record>, selected: Option<string>): (c: Chart)
    ensures c.Pie?
    ensures Unset(selected) ==>
      c.title == Prompt && c.slices == [Slice(Prompt, 1)] && c.colors == map[]
    ensures selected == Some(AllSites) ==>
      c.title == "Percentage of Successful Launches by Launch Site" && c.colors == map[]
    ensures IsSpecificSite(selected) && Rows(ds, SiteIs(selected.value)) == {} ==>
      var message := "No data available for " + selected.value;
      c.title == message && c.slices == [Slice(message, 1)] && c.colors == map[]
    ensures IsSpecificSite(selected) && Rows(ds, SiteIs(selected.value)) != {} ==>
      var site := selected.value;
      && c.title == "Total Success Launches for " + site
      && c.slices == [Slice("Success", |Rows(ds, SiteIs(site)) * Rows(ds, ClassIs(1))|),
                      Slice("Failure", |Rows(ds, SiteIs(site)) * Rows(ds, ClassIs(0))|)]
      && c.colors == map["Success" := "red", "Failure" := "blue"]
  {
    if Unset(selected) then PlaceholderPie(Prompt)
    else if selected.value == AllSites then OverallPie(ds)
    else SitePie(ds, selected.value)
  }

  lemma {:induction false} SumSlicesOf(g: seq<Group>)
    ensures Sum(SlicesOf(g)) == Total(g)
  {
    if g != [] {
      assert SlicesOf(g)[1..] == SlicesOf(g[1..]);
      SumSlicesOf(g[1..]);
    }
  }

  /**
    With every site selected, the slices name distinct sites, each slice
    counts that site's successful launches, and a site has a slice exactly
    when it has at least one success.
   */
  lemma AllSitesPieSlices(ds: seq<Record>)
    ensures var c := PieChart(ds, Some(AllSites));
      && (forall i, j :: 0 <= i < j < |c.slices| ==> c.slices[i].name != c.slices[j].name)
      && (forall i :: 0 <= i < |c.slices| ==>
            c.slices[i].value == |Rows(ds, ClassIs(1)) * Rows(ds, SiteIs(c.slices[i].name))| > 0)
      && (forall site :: site in Names(c.slices) <==> Rows(ds, ClassIs(1)) * Rows(ds, SiteIs(site)) != {})
  {
    var successes := Select(ds, ClassIs(1));
    var g := GroupBySite(successes);
    var slices := PieChart(ds, Some(AllSites)).slices;
    assert slices == SlicesOf(g);
    assert Names(slices) == Keys(g);
    forall site ensures |Select(successes, SiteIs(site))| == |Rows(ds, ClassIs(1)) * Rows(ds, SiteIs(site))| {
      SelectTwiceCount(ds, ClassIs(1), SiteIs(site));
    }
  }

  /** With every site selected, the slice values add up to the number of successful launches. */
  lemma AllSitesPieTotal(ds: seq<Record>)
    ensures Sum(PieChart(ds, Some(AllSites)).slices) == |Rows(ds, ClassIs(1))|
  {
    var successes := Select(ds, ClassIs(1));
    SumSlicesOf(GroupBySite(successes));
    SelectCount(ds, ClassIs(1));
  }

  /**
    When every launch at the site is a success or a failure, the two
    slices of the site pie together count all of that site's launches.
   */
  lemma SitePieCoversSite(ds: seq<Record>, site: string)
    requires IsSpecificSite(Some(site))
    requires Rows(ds, SiteIs(site)) != {}
    requires forall i :: 0 <= i < |ds| && ds[i].site == site ==> ds[i].cls == 0 || ds[i].cls == 1
    ensures Sum(PieChart(ds, Some(site)).slices) == |Rows(ds, SiteIs(site))|
  {
    OutcomesPartitionSite(ds, site);
    var slices := PieChart(ds, Some(site)).slices;
    assert |slices| == 2;
    assert slices[1..][1..] == [];
    assert Sum(slices[1..]) == slices[1].value;
  }

  // ---------------------------------------------------------------------
  // The payload scatter
  // ---------------------------------------------------------------------

  /** A scatter whose single point carries a message on both axes. */
  function PlaceholderScatter(message: string): (c: Chart)
    ensures c.Scatter? && c.title == message && c.xRange == None
    ensures |c.points| == 1 && c.points[0].x == c.points[0].y == Label(message)
    ensures c.points[0].color == None
  {
    Scatter(message, [Point(Label(message), Label(message), None)], None)
  }

  /** x = payload mass, y = outcome class, colour = booster category, one point per row. */
  function Series(rs: seq<Record>): seq<Point> {
    seq(|rs|, i requires 0 <= i < |rs| => Point(Num(rs[i].payload), Num(rs[i].cls), Some(rs[i].booster)))
  }

  /** One point per row of the site, in table order; the range only sets the axis. */
  function SiteScatter(ds: seq<Record>, site: string, payloadRange: AxisRange): (c: Chart)
    ensures var rs := Select(ds, SiteIs(site));
      && c.Scatter?
      && c.title == "Payload vs. Success for " + site
      && c.xRange == Some(payloadRange)
      && |c.points| == |rs| == |Rows(ds, SiteIs(site))|
      && forall i :: 0 <= i < |rs| ==>
           c.points[i] == Point(Num(rs[i].payload), Num(rs[i].cls), Some(rs[i].booster))
  {
    SelectCount(ds, SiteIs(site));
    Scatter("Payload vs. Success for " + site, Series(Select(ds, SiteIs(site))), Some(payloadRange))
  }

  /** One point per row of the whole table, in table order; the range only sets the axis. */
  function OverallScatter(ds: seq<Record>, payloadRange: AxisRange): (c: Chart)
    ensures && c.Scatter?
            && c.title == "Payload vs. Success for All Sites"
            && c.xRange == Some(payloadRange)
            && |c.points| == |ds|
            && forall i :: 0 <= i < |ds| ==>
                 c.points[i] == Point(Num(ds[i].payload), Num(ds[i].cls), Some(ds[i].booster))
  {
    Scatter("Payload vs. Success for All Sites", Series(ds), Some(payloadRange))
  }

  /**
    The scatter callback, `get_scatter_chart(selected_site, payload_range)`.
    The payload range only sets the visible x-axis: it selects no rows.
   */
  function ScatterChart(ds: seq<Record>, selected: Option<string>, payloadRange: AxisRange): (c: Chart)
    ensures c.Scatter?
    ensures Unset(selected) ==>
      c.title == Prompt && c.points == [Point(Label(Prompt), Label(Prompt), None)] && c.xRange == None
    ensures selected == Some(AllSites) ==>
      && c.title == "Payload vs. Success for All Sites"
      && c.xRange == Some(payloadRange)
      && |c.points| == |ds|
      && forall i :: 0 <= i < |ds| ==>
           c.points[i] == Point(Num(ds[i].payload), Num(ds[i].cls), Some(ds[i].booster))
    ensures IsSpecificSite(selected) ==>
      var site := selected.value;
      var rs := Select(ds, SiteIs(site));
      && c.title == "Payload vs. Success for " + site
      && c.xRange == Some(payloadRange)
      && |c.points| == |rs| == |Rows(ds, SiteIs(site))|
      && forall i :: 0 <= i < |rs| ==>
           c.points[i] == Point(Num(rs[i].payload), Num(rs[i].cls), Some(rs[i].booster))
  {
    if Unset(selected) then PlaceholderScatter(Prompt)
    else if selected.value == AllSites then OverallScatter(ds, payloadRange)
    else SiteScatter(ds, selected.value, payloadRange)
  }

  /** Moving the payload slider changes the x-axis only, never the title or the series. */
  lemma ScatterSeriesIgnoresRange(ds: seq<Record>, selected: Option<string>, r1: AxisRange, r2: AxisRange)
    ensures ScatterChart(ds, selected, r1).points == ScatterChart(ds, selected, r2).points
    ensures ScatterChart(ds, selected, r1).title == ScatterChart(ds, selected, r2).title
  {
  }

  /**
    A site with no rows: the pie falls back to its no-data placeholder,
    while the scatter keeps its site title and simply has no points.
   */
  lemma UnknownSiteCharts(ds: seq<Record>, site: string, payloadRange: AxisRange)
    requires IsSpecificSite(Some(site))
    requires forall i :: 0 <= i < |ds| ==> ds[i].site != site
    ensures PieChart(ds, Some(site)).slices == [Slice("No data available for " + site, 1)]
    ensures ScatterChart(ds, Some(site), payloadRange).points == []
    ensures ScatterChart(ds, Some(site), payloadRange).title == "Payload vs. Success for " + site
  {
    assert Rows(ds, SiteIs(site)) == {};
  }

  // ---------------------------------------------------------------------
  // A worked example: two launches at site A, one success and one
  // failure, then one successful launch at site B. Payloads and booster
  // categories are left free.
  // ---------------------------------------------------------------------

  predicate IsExampleTable(a1: Record, a2: Record, b: Record) {
    && a1.site == "A" && a1.cls == 1
    && a2.site == "A" && a2.cls == 0
    && b.site == "B" && b.cls == 1
  }

  /** Masking a three-row table, one row at a time. */
  lemma SelectThree(a1: Record, a2: Record, b: Record, m: Mask)
    ensures Select([a1, a2, b], m) == (if Matches(a1, m) then [a1] else [])
                                    + (if Matches(a2, m) then [a2] else [])
                                    + (if Matches(b, m) then [b] else [])
  {
    assert [a1, a2, b] == [a1, a2] + [b];
    assert [a1, a2] == [a1] + [a2];
    assert [a1] == [] + [a1];
    SelectSnoc([], a1, m);
    SelectSnoc([a1], a2, m);
    SelectSnoc([a1, a2], b, m);
  }

  lemma ExampleSitePie(a1: Record, a2: Record, b: Record)
    requires IsExampleTable(a1, a2, b)
    ensures PieChart([a1, a2, b], Some("A")).slices == [Slice("Success", 1), Slice("Failure", 1)]
  {
    SelectThree(a1, a2, b, SiteIs("A"));
    assert Select([a1, a2, b], SiteIs("A")) == [a1, a2];
    assert [a1, a2] == [a1] + [a2];
    assert [a1] == [] + [a1];
    SelectSnoc([], a1, ClassIs(1));
    SelectSnoc([a1], a2, ClassIs(1));
    SelectSnoc([], a1, ClassIs(0));
    SelectSnoc([a1], a2, ClassIs(0));
  }

  lemma ExampleAllSitesPie(a1: Record, a2: Record, b: Record)
    requires IsExampleTable(a1, a2, b)
    ensures PieChart([a1, a2, b], Some(AllSites)).slices == [Slice("A", 1), Slice("B", 1)]
  {
    var ds := [a1, a2, b];
    calc {
      PieChart(ds, Some(AllSites)).slices;
      OverallPie(ds).slices;
      SlicesOf(GroupBySite(Select(ds, ClassIs(1))));
      { ExampleGroups(a1, a2, b); }
      SlicesOf([Group("A", 1), Group("B", 1)]);
      { TwoSlices(Group("A", 1), Group("B", 1)); }
      [Slice("A", 1), Slice("B", 1)];
    }
  }

  lemma TwoSlices(g1: Group, g2: Group)
    ensures SlicesOf([g1, g2]) == [Slice(g1.key, g1.size), Slice(g2.key, g2.size)]
  {
  }

  lemma ExampleGroups(a1: Record, a2: Record, b: Record)
    requires IsExampleTable(a1, a2, b)
    ensures GroupBySite(Select([a1, a2, b], ClassIs(1))) == [Group("A", 1), Group("B", 1)]
  {
    SelectThree(a1, a2, b, ClassIs(1));
    assert Select([a1, a2, b], ClassIs(1)) == [a1, b];
    GroupTwoSites(a1, b);
  }

  lemma GroupTwoSites(a: Record, b: Record)
    requires a.site == "A" && b.site == "B"
    ensures GroupBySite([a, b]) == [Group("A", 1), Group("B", 1)]
  {
    assert [a, b] == [a] + [b];
    assert [a] == [] + [a];
    SelectSnoc([], a, SiteIs("A"));
    SelectSnoc([a], b, SiteIs("A"));
    var others := OtherSites([a, b], "A");
    assert others == [b];
    assert [b] == [] + [b];
    SelectSnoc([], b, SiteIs("B"));
    assert OtherSites(others, "B") == [];
  }

  lemma ExampleUnknownSite(a1: Record, a2: Record, b: Record)
    requires IsExampleTable(a1, a2, b)
    ensures PieChart([a1, a2, b], Some("C")).slices == [Slice("No data available for C", 1)]
  {
    UnknownSiteCharts([a1, a2, b], "C", AxisRange(0, 0));
    assert "No data available for " + "C" == "No data available for C";
  }
}
