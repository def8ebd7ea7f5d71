/**
  The launch-record table and the pandas operations the dashboard applies to it:
  column-equality masks (`df[df[col] == v]`), row counts (`.shape[0]`),
  `groupby('Launch Site').size()` and the column maximum and minimum.
 */
module LaunchData {
  import opened Wrappers

  /** One row of the table: launch site, payload mass in kg, outcome class and booster category. */
  datatype Record = Record(site: string, payload: int, cls: int, booster: string)

  /** A column-equality mask on one of the two columns the callbacks filter by. */
  datatype Mask = SiteIs(site: string) | ClassIs(cls: int)

  predicate Matches(r: Record, m: Mask) {
    match m
    case SiteIs(s) => r.site == s
    case ClassIs(c) => r.cls == c
  }

  /**
    `ds[mask]`: the rows the mask keeps, in table order. Together with
    SelectMembers and SelectAppend this pins the result down: each row is
    kept exactly when it matches, and the kept rows stay in their order.
   */
  function Select(ds: seq<Record>, m: Mask): (r: seq<Record>)
    ensures |r| <= |ds|
  {
    if ds == [] then []
    else
      var init := ds[..|ds| - 1];
      assert ds == init + [ds[|ds| - 1]];
      var kept := Select(init, m);
      if Matches(ds[|ds| - 1], m) then kept + [ds[|ds| - 1]] else kept
  }

  /** Reference definition of a filter's size: the set of row indices the mask holds for. */
  ghost function Rows(ds: seq<Record>, m: Mask): set<nat> {
    set i: nat | i < |ds| && Matches(ds[i], m)
  }

  lemma RowsSnoc(ds: seq<Record>, x: Record, m: Mask)
    ensures Rows(ds + [x], m) == Rows(ds, m) + (if Matches(x, m) then {|ds|} else {})
    ensures |ds| !in Rows(ds, m)
  {
    var e := ds + [x];
    assert forall i :: 0 <= i < |ds| ==> e[i] == ds[i];
  }

  /** A row is kept exactly when it is in the table and matches the mask. */
  lemma {:induction false} SelectMembers(ds: seq<Record>, m: Mask)
    ensures forall x :: x in Select(ds, m) <==> x in ds && Matches(x, m)
  {
    if ds != [] {
      var init := ds[..|ds| - 1];
      assert ds == init + [ds[|ds| - 1]];
      SelectMembers(init, m);
    }
  }

  /** Filtering a concatenation filters each part: the mask keeps table order. */
  lemma {:induction false} SelectAppend(a: seq<Record>, b: seq<Record>, m: Mask)
    ensures Select(a + b, m) == Select(a, m) + Select(b, m)
  {
    if b == [] {
      assert a + b == a;
    } else {
      var init := b[..|b| - 1];
      assert (a + b)[..|a + b| - 1] == a + init;
      assert (a + b)[|a + b| - 1] == b[|b| - 1];
      SelectAppend(a, init, m);
    }
  }

  /** The row count of a filter is the number of rows the mask holds for. */
  lemma {:induction false} SelectCount(ds: seq<Record>, m: Mask)
    ensures |Select(ds, m)| == |Rows(ds, m)|
  {
    if ds != [] {
      var init := ds[..|ds| - 1];
      var x := ds[|ds| - 1];
      assert ds == init + [x];
      SelectCount(init, m);
      RowsSnoc(init, x, m);
    }
  }

  /** Filtering a table with one more row at its end. */
  lemma SelectSnoc(ds: seq<Record>, x: Record, m: Mask)
    ensures Select(ds + [x], m) == Select(ds, m) + (if Matches(x, m) then [x] else [])
  {
    assert (ds + [x])[..|ds|] == ds;
  }

  lemma RowsBothSnoc(ds: seq<Record>, x: Record, m: Mask, n: Mask)
    ensures Rows(ds + [x], m) * Rows(ds + [x], n)
         == Rows(ds, m) * Rows(ds, n) + (if Matches(x, m) && Matches(x, n) then {|ds|} else {})
    ensures |ds| !in Rows(ds, m) * Rows(ds, n)
  {
    RowsSnoc(ds, x, m);
    RowsSnoc(ds, x, n);
  }

  /** The row count of a filter of a filter is the number of rows both masks hold for. */
  lemma {:induction false} SelectTwiceCount(ds: seq<Record>, m: Mask, n: Mask)
    ensures |Select(Select(ds, m), n)| == |Rows(ds, m) * Rows(ds, n)|
  {
    if ds != [] {
      var init := ds[..|ds| - 1];
      var x := ds[|ds| - 1];
      assert ds == init + [x];
      SelectTwiceCount(init, m, n);
      RowsBothSnoc(init, x, m, n);
      SelectSnoc(init, x, m);
      if Matches(x, m) {
        SelectSnoc(Select(init, m), x, n);
      }
    }
  }

  /** When every class at a site is 0 or 1, the site's successes and failures together are all its rows. */
  lemma OutcomesPartitionSite(ds: seq<Record>, site: string)
    requires forall i :: 0 <= i < |ds| && ds[i].site == site ==> ds[i].cls == 0 || ds[i].cls == 1
    ensures |Rows(ds, SiteIs(site)) * Rows(ds, ClassIs(1))| + |Rows(ds, SiteIs(site)) * Rows(ds, ClassIs(0))|
         == |Rows(ds, SiteIs(site))|
  {
    var atSite := Rows(ds, SiteIs(site));
    var succ := atSite * Rows(ds, ClassIs(1));
    var fail := atSite * Rows(ds, ClassIs(0));
    forall i | i in atSite ensures i in succ + fail {
      assert ds[i].cls == 0 || ds[i].cls == 1;
    }
    assert succ + fail == atSite;
    assert succ * fail == {};
  }

  /** `df['Payload Mass (kg)'].max()`; pandas gives NaN on an empty column, modelled as None. */
  function MaxPayload(ds: seq<Record>): (m: Option<int>)
    ensures m.None? <==> ds == []
    ensures m.Some? ==> forall i :: 0 <= i < |ds| ==> ds[i].payload <= m.value
    ensures m.Some? ==> exists i :: 0 <= i < |ds| && ds[i].payload == m.value
  {
    if ds == [] then None
    else
      match MaxPayload(ds[1..])
      case None => Some(ds[0].payload)
      case Some(v) => Some(if ds[0].payload >= v then ds[0].payload else v)
  }

  /** `df['Payload Mass (kg)'].min()`; pandas gives NaN on an empty column, modelled as None. */
  function MinPayload(ds: seq<Record>): (m: Option<int>)
    ensures m.None? <==> ds == []
    ensures m.Some? ==> forall i :: 0 <= i < |ds| ==> m.value <= ds[i].payload
    ensures m.Some? ==> exists i :: 0 <= i < |ds| && ds[i].payload == m.value
  {
    if ds == [] then None
    else
      match MinPayload(ds[1..])
      case None => Some(ds[0].payload)
      case Some(v) => Some(if ds[0].payload <= v then ds[0].payload else v)
  }

  /** On a non-empty table the two bounds exist, are attained and are ordered. */
  lemma PayloadBoundsOrdered(ds: seq<Record>)
    requires ds != []
    ensures MinPayload(ds).Some? && MaxPayload(ds).Some?
    ensures MinPayload(ds).value <= MaxPayload(ds).value
  {
    assert MinPayload(ds).value <= ds[0].payload <= MaxPayload(ds).value;
  }

  /** One row of `groupby(...).size().reset_index(name='count')`. */
  datatype Group = Group(key: string, size: nat)

  function Keys(g: seq<Group>): seq<string> {
    seq(|g|, i requires 0 <= i < |g| => g[i].key)
  }

  function Total(g: seq<Group>): nat {
    if g == [] then 0 else g[0].size + Total(g[1..])
  }

  /** The rows whose site differs from `s`, in table order. */
  function OtherSites(rs: seq<Record>, s: string): (r: seq<Record>)
    ensures |r| + |Select(rs, SiteIs(s))| == |rs|
    ensures forall t :: t != s ==> Select(r, SiteIs(t)) == Select(rs, SiteIs(t))
    ensures Select(r, SiteIs(s)) == []
  {
    if rs == [] then []
    else
      var init := rs[..|rs| - 1];
      var x := rs[|rs| - 1];
      assert rs == init + [x];
      var rest := OtherSites(init, s);
      if x.site == s then rest
      else
        SelectAppend(rest, [x], SiteIs(s));
        assert forall t :: Select(rest + [x], SiteIs(t)) == Select(rest, SiteIs(t)) + Select([x], SiteIs(t)) by {
          forall t ensures Select(rest + [x], SiteIs(t)) == Select(rest, SiteIs(t)) + Select([x], SiteIs(t)) {
            SelectAppend(rest, [x], SiteIs(t));
          }
        }
        rest + [x]
  }

  /**
    `g` is the result of grouping `rs` by site and taking each group's size:
    one group per distinct site present, each sized by that site's row count,
    the sizes adding up to the number of rows.
   */
  ghost predicate IsSiteGrouping(rs: seq<Record>, g: seq<Group>) {
    && (forall i, j :: 0 <= i < j < |g| ==> g[i].key != g[j].key)
    && (forall i :: 0 <= i < |g| ==> g[i].size == |Select(rs, SiteIs(g[i].key))| > 0)
    && (forall t :: t in Keys(g) <==> Select(rs, SiteIs(t)) != [])
    && Total(g) == |rs|
  }

  /** Putting the group of `s` in front of a grouping of the rows at the other sites groups all rows. */
  lemma GroupCons(rs: seq<Record>, s: string, others: seq<Record>, rest: seq<Group>)
    requires Select(rs, SiteIs(s)) != []
    requires |others| + |Select(rs, SiteIs(s))| == |rs|
    requires forall t :: t != s ==> Select(others, SiteIs(t)) == Select(rs, SiteIs(t))
    requires Select(others, SiteIs(s)) == []
    requires IsSiteGrouping(others, rest)
    ensures IsSiteGrouping(rs, [Group(s, |Select(rs, SiteIs(s))|)] + rest)
  {
    var g := [Group(s, |Select(rs, SiteIs(s))|)] + rest;
    assert g[1..] == rest;
    assert Total(g) == |rs|;
    forall j | 0 <= j < |rest| ensures rest[j].key != s {
      assert rest[j].key in Keys(rest);
    }
    GroupConsKeys(rs, s, others, rest);
    GroupConsSizes(rs, s, others, rest);
    assert forall i, j :: 0 <= i < j < |g| ==> g[i].key != g[j].key by {
      forall i, j | 0 <= i < j < |g| ensures g[i].key != g[j].key {
        assert g[j] == rest[j - 1];
        if i > 0 {
          assert g[i] == rest[i - 1];
        }
      }
    }
  }

  lemma GroupConsKeys(rs: seq<Record>, s: string, others: seq<Record>, rest: seq<Group>)
    requires Select(rs, SiteIs(s)) != []
    requires forall t :: t != s ==> Select(others, SiteIs(t)) == Select(rs, SiteIs(t))
    requires Select(others, SiteIs(s)) == []
    requires forall t :: t in Keys(rest) <==> Select(others, SiteIs(t)) != []
    ensures forall t :: t in Keys([Group(s, |Select(rs, SiteIs(s))|)] + rest) <==> Select(rs, SiteIs(t)) != []
  {
    var g := [Group(s, |Select(rs, SiteIs(s))|)] + rest;
    assert Keys(g) == [s] + Keys(rest);
    forall t ensures t in Keys(g) <==> Select(rs, SiteIs(t)) != [] {
      if t == s {
        assert t in Keys(g);
      } else {
        assert t in Keys(g) <==> t in Keys(rest);
      }
    }
  }

  lemma GroupConsSizes(rs: seq<Record>, s: string, others: seq<Record>, rest: seq<Group>)
    requires Select(rs, SiteIs(s)) != []
    requires forall t :: t != s ==> Select(others, SiteIs(t)) == Select(rs, SiteIs(t))
    requires forall j :: 0 <= j < |rest| ==> rest[j].key != s
    requires forall i :: 0 <= i < |rest| ==> rest[i].size == |Select(others, SiteIs(rest[i].key))| > 0
    ensures var g := [Group(s, |Select(rs, SiteIs(s))|)] + rest;
      forall i :: 0 <= i < |g| ==> g[i].size == |Select(rs, SiteIs(g[i].key))| > 0
  {
    var g := [Group(s, |Select(rs, SiteIs(s))|)] + rest;
    forall i | 0 <= i < |g| ensures g[i].size == |Select(rs, SiteIs(g[i].key))| > 0 {
      if i > 0 {
        assert g[i] == rest[i - 1];
      }
    }
  }

  /**
    `groupby('Launch Site').size()`: one group per distinct site, sized by
    that site's row count. Groups appear here in order of first appearance;
    the contract states only what does not depend on the order.
   */
  function GroupBySite(rs: seq<Record>): (g: seq<Group>)
    decreases |rs|
    ensures IsSiteGrouping(rs, g)
  {
    if rs == [] then []
    else
      var s := rs[0].site;
      SelectMembers(rs, SiteIs(s));
      assert rs[0] in Select(rs, SiteIs(s));
      var others := OtherSites(rs, s);
      var rest := GroupBySite(others);
      GroupCons(rs, s, others, rest);
      [Group(s, |Select(rs, SiteIs(s))|)] + rest
  }
}
