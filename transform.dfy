/**
 * The transform stage: it picks one extraction timestamp among those present in the
 * warehouse, turns it into a filter fragment, and builds the three views with that
 * fragment substituted into their SQL templates.
 */
module Transform {
  import opened Common
  import opened Keys
  import opened Template

  /**
   * A value of the `extraction_timestamp` column as Python sees it.  The warehouse
   * client returns timezone-aware UTC datetimes (`utc`); `datetime.fromisoformat`
   * returns a naive one for text without an offset.  Python's `==` never equates a
   * naive datetime with an aware one.
   */
  datatype Stamp = Stamp(moment: DateTime, utc: bool)

  /** What the distinct-timestamps query returns: valid UTC values, without repeats, most recent first. */
  predicate FromWarehouse(available: seq<Stamp>)
  {
    && (forall i :: 0 <= i < |available| ==> available[i].utc && ValidDateTime(available[i].moment))
    && (forall i, j :: 0 <= i < j < |available| ==>
          NotAfter(available[j].moment, available[i].moment) && available[i] != available[j])
  }

  /** `obtenir_timestamps_disponibles`: the query's rows, or `[]` when the query raises. */
  function AvailableTimestamps(query: Outcome<seq<Stamp>>): seq<Stamp>
  {
    if query.Returned? then query.value else []
  }

  // ---------------------------------------------------------------------------
  // Selecting the timestamp
  // ---------------------------------------------------------------------------

  /**
   * `selectionner_timestamp`.  `parse` stands for
   * `datetime.fromisoformat(text.replace('Z', '+00:00'))`, `None` for the error it raises.
   * The selection never fails while the warehouse holds a timestamp: an absent, unknown
   * or unreadable request falls back to the first (most recent) one.
   */
  function SelectTimestamp(requested: Option<string>, available: seq<Stamp>, parse: string -> Option<Stamp>)
    : (r: Option<Stamp>)
    ensures r.None? <==> available == []
    ensures r.Some? ==> r.value in available
    ensures r.Some? && r.value != available[0] ==> requested.Some? && parse(requested.value) == r
  {
    if available == [] then None
    else if requested.None? then Some(available[0])
    else
      match parse(requested.value)
      case None => Some(available[0])
      case Some(t) => if t in available then Some(t) else Some(available[0])
  }

  /** A request that reads as a timestamp present in the warehouse is the one selected. */
  lemma RequestHonoured(text: string, available: seq<Stamp>, parse: string -> Option<Stamp>)
    requires parse(text).Some?
    ensures SelectTimestamp(Some(text), available, parse) == parse(text) <==> parse(text).value in available
  {
  }

  /** Without a usable request the selection is the most recent timestamp of the warehouse. */
  lemma FallbackIsMostRecent(requested: Option<string>, available: seq<Stamp>, parse: string -> Option<Stamp>)
    requires FromWarehouse(available) && available != []
    requires requested.None? || parse(requested.value).None? || parse(requested.value).value !in available
    ensures SelectTimestamp(requested, available, parse) == Some(available[0])
    ensures forall t :: t in available ==> NotAfter(t.moment, available[0].moment)
  {
    forall t | t in available ensures NotAfter(t.moment, available[0].moment) {
      var j :| 0 <= j < |available| && available[j] == t;
      if j == 0 {
        assert NotAfter(t.moment, t.moment);
      }
    }
  }

  /**
   * A request without a UTC offset never selects anything: it parses to a naive
   * datetime, which equals none of the aware values the warehouse returns, so the most
   * recent timestamp is used instead.
   */
  lemma NaiveRequestFallsBack(text: string, available: seq<Stamp>, parse: string -> Option<Stamp>)
    requires FromWarehouse(available) && available != []
    requires parse(text).Some? && !parse(text).value.utc
    ensures SelectTimestamp(Some(text), available, parse) == Some(available[0])
  {
  }

  // ---------------------------------------------------------------------------
  // The filter fragment
  // ---------------------------------------------------------------------------

  /** `datetime.isoformat()` of a value without microseconds. */
  function IsoFormat(t: Stamp): (s: string)
    requires ValidDateTime(t.moment)
    ensures |s| == if t.utc then 25 else 19
  {
    DateString(t.moment) + "T" + ClockString(t.moment) + (if t.utc then "+00:00" else "")
  }

  /** Equal clocks are equal times of day. */
  lemma ClockInjective(a: DateTime, b: DateTime)
    requires ValidDateTime(a) && ValidDateTime(b) && ClockString(a) == ClockString(b)
    ensures TimeString(a) == TimeString(b)
  {
    var ca, cb := ClockString(a), ClockString(b);
    assert ca == Pad2(a.hour) + ":" + Pad2(a.minute) + ":" + Pad2(a.second);
    assert cb == Pad2(b.hour) + ":" + Pad2(b.minute) + ":" + Pad2(b.second);
    assert Pad2(a.hour) == ca[..2] == cb[..2] == Pad2(b.hour);
    assert Pad2(a.minute) == ca[3..5] == cb[3..5] == Pad2(b.minute);
    assert Pad2(a.second) == ca[6..] == cb[6..] == Pad2(b.second);
  }

  /** The ISO text names exactly one value: distinct timestamps are written differently. */
  lemma IsoInjective(a: Stamp, b: Stamp)
    requires ValidDateTime(a.moment) && ValidDateTime(b.moment) && IsoFormat(a) == IsoFormat(b)
    ensures a == b
  {
    var ia, ib := IsoFormat(a), IsoFormat(b);
    assert a.utc == b.utc;
    assert DateString(a.moment) == ia[..10] == ib[..10] == DateString(b.moment);
    assert ClockString(a.moment) == ia[11..19] == ib[11..19] == ClockString(b.moment);
    ClockInjective(a.moment, b.moment);
    assert BatchKey(a.moment) == BatchKey(b.moment);
    BatchKeyInjective(a.moment, b.moment);
  }

  const FilterHead := "AND extraction_timestamp = TIMESTAMP('"
  const FilterTail := "')"

  /** The `timestamp_filter` fragment: a restriction to one timestamp, or no restriction. */
  function TimestampFilter(t: Option<Stamp>): (r: string)
    requires t.Some? ==> ValidDateTime(t.value.moment)
    ensures r == "" <==> t.None?
  {
    if t.Some? then FilterHead + IsoFormat(t.value) + FilterTail else ""
  }

  /** Distinct timestamps give distinct filters: a view built with one filter reads one batch. */
  lemma FilterInjective(a: Option<Stamp>, b: Option<Stamp>)
    requires a.Some? ==> ValidDateTime(a.value.moment)
    requires b.Some? ==> ValidDateTime(b.value.moment)
    requires TimestampFilter(a) == TimestampFilter(b)
    ensures a == b
  {
    if a.Some? && b.Some? {
      var fa, fb := TimestampFilter(a), TimestampFilter(b);
      var n := |FilterHead|;
      assert |fa| == n + |IsoFormat(a.value)| + 2;
      assert |fb| == n + |IsoFormat(b.value)| + 2;
      assert fa[n..|fa| - 2] == IsoFormat(a.value);
      assert fb[n..|fb| - 2] == IsoFormat(b.value);
      IsoInjective(a.value, b.value);
    }
  }

  /** Requesting the ISO text of a timestamp of the warehouse selects that timestamp,
      provided `parse` reads ISO text back. */
  lemma IsoRequestSelectsIt(t: Stamp, available: seq<Stamp>, parse: string -> Option<Stamp>)
    requires ValidDateTime(t.moment) && t in available && parse(IsoFormat(t)) == Some(t)
    ensures SelectTimestamp(Some(IsoFormat(t)), available, parse) == Some(t)
  {
  }

  // ---------------------------------------------------------------------------
  // Formatting and creating a view
  // ---------------------------------------------------------------------------

  /** The keyword arguments of `formater_sql`'s `str.format` call. */
  function ViewEnv(projectId: string, dataset: string, filter: string): (env: map<string, string>)
    ensures env.Keys == {"project_id", "dataset", "timestamp_filter"}
    ensures env["project_id"] == projectId && env["dataset"] == dataset && env["timestamp_filter"] == filter
  {
    map["project_id" := projectId, "dataset" := dataset, "timestamp_filter" := filter]
  }

  /** The holes a view template may use. */
  predicate UsesViewFields(template: seq<Piece>)
  {
    forall i :: 0 <= i < |template| && template[i].Field? ==>
      template[i].name in {"project_id", "dataset", "timestamp_filter"}
  }

  /**
   * `formater_sql`: a missing timestamp is selected afresh (the most recent); the SQL
   * is the template filled with the project, the dataset and the filter.  `None` is
   * the `KeyError` of a hole other than those three.
   */
  function FormatSql(template: seq<Piece>, projectId: string, dataset: string, timestamp: Option<Stamp>,
                     available: seq<Stamp>, parse: string -> Option<Stamp>): (r: Option<string>)
    requires FromWarehouse(available)
    requires timestamp.Some? ==> ValidDateTime(timestamp.value.moment)
    ensures r.Some? <==> UsesViewFields(template)
  {
    var t := if timestamp.None? then SelectTimestamp(None, available, parse) else timestamp;
    Fill(template, ViewEnv(projectId, dataset, TimestampFilter(t)))
  }

  /** Formatting without a timestamp is formatting with the warehouse's most recent one,
      or without restriction when the warehouse holds none. */
  lemma FormatWithoutTimestamp(template: seq<Piece>, projectId: string, dataset: string, available: seq<Stamp>,
                               parse: string -> Option<Stamp>)
    requires FromWarehouse(available)
    ensures available != [] ==>
              FormatSql(template, projectId, dataset, None, available, parse)
              == FormatSql(template, projectId, dataset, Some(available[0]), available, parse)
    ensures available == [] ==>
              FormatSql(template, projectId, dataset, None, available, parse)
              == Fill(template, ViewEnv(projectId, dataset, ""))
  {
  }

  /** The formatted SQL of a template is its pieces' texts with the three values in the holes. */
  lemma FormatSqlPieces(a: seq<Piece>, b: seq<Piece>, projectId: string, dataset: string, timestamp: Option<Stamp>,
                        available: seq<Stamp>, parse: string -> Option<Stamp>)
    requires FromWarehouse(available)
    requires timestamp.Some? ==> ValidDateTime(timestamp.value.moment)
    requires UsesViewFields(a) && UsesViewFields(b)
    ensures FormatSql(a + [Field("timestamp_filter")] + b, projectId, dataset, timestamp, available, parse).value
            == FormatSql(a, projectId, dataset, timestamp, available, parse).value
               + TimestampFilter(if timestamp.None? then SelectTimestamp(None, available, parse) else timestamp)
               + FormatSql(b, projectId, dataset, timestamp, available, parse).value
  {
    var t := if timestamp.None? then SelectTimestamp(None, available, parse) else timestamp;
    var env := ViewEnv(projectId, dataset, TimestampFilter(t));
    var hole := [Field("timestamp_filter")];
    assert hole[1..] == [] && Fill(hole[1..], env) == Some("");
    assert env["timestamp_filter"] + "" == TimestampFilter(t);
    assert Fill(hole, env) == Some(TimestampFilter(t));
    ViewFieldsBound(a, env);
    ViewFieldsBound(b, env);
    FillConcat(a, hole, env);
    FillConcat(a + hole, b, env);
  }

  /** A template using only the view fields can be filled from any map holding those three. */
  lemma ViewFieldsBound(template: seq<Piece>, env: map<string, string>)
    requires UsesViewFields(template) && env.Keys == {"project_id", "dataset", "timestamp_filter"}
    ensures Bound(template, env)
  {
  }

  /**
   * `creer_vue`: `False` when the SQL file is missing (`Raised`), when formatting
   * raises, or when the warehouse rejects the statement (`execute` answers `false`);
   * `True` otherwise.
   */
  function CreateView(sqlFile: Outcome<seq<Piece>>, projectId: string, dataset: string, timestamp: Option<Stamp>,
                      available: seq<Stamp>, parse: string -> Option<Stamp>, execute: string -> bool): (ok: bool)
    requires FromWarehouse(available)
    requires timestamp.Some? ==> ValidDateTime(timestamp.value.moment)
    ensures ok <==> && sqlFile.Returned? && UsesViewFields(sqlFile.value)
                    && execute(FormatSql(sqlFile.value, projectId, dataset, timestamp, available, parse).value)
  {
    if sqlFile.Raised? then false
    else
      match FormatSql(sqlFile.value, projectId, dataset, timestamp, available, parse)
      case None => false
      case Some(sql) => execute(sql)
  }

  // ---------------------------------------------------------------------------
  // The stage
  // ---------------------------------------------------------------------------

  /** A view to create: its configured name and the file holding its definition. */
  datatype View = View(name: string, file: string)

  /** The views in dependency order: the two cleaned views, then the dashboard view. */
  function Views(ratiosCleaned: string, stockCleaned: string, looker: string): (vs: seq<View>)
    ensures |vs| == 3
    ensures vs[0].file == "01_ratios_cleaned.sql" && vs[1].file == "02_stock_cleaned.sql"
            && vs[2].file == "04_vue_looker_studio.sql"
  {
    [View(ratiosCleaned, "01_ratios_cleaned.sql"), View(stockCleaned, "02_stock_cleaned.sql"),
     View(looker, "04_vue_looker_studio.sql")]
  }

  /** The result dict after creating `views` in order, every one with the timestamp `t`. */
  function ViewResults(views: seq<View>, files: string -> Outcome<seq<Piece>>, projectId: string, dataset: string,
                       t: Option<Stamp>, available: seq<Stamp>, parse: string -> Option<Stamp>,
                       execute: string -> bool): map<string, bool>
    requires FromWarehouse(available)
    requires t.Some? ==> ValidDateTime(t.value.moment)
  {
    if views == [] then map[]
    else
      var v := views[|views| - 1];
      ViewResults(views[..|views| - 1], files, projectId, dataset, t, available, parse, execute)
        [v.name := CreateView(files(v.file), projectId, dataset, t, available, parse, execute)]
  }

  /**
   * Each view's entry is the outcome of that view's own creation: a failing view does
   * not stop the later ones.
   */
  lemma {:induction false} EachViewReported(views: seq<View>, files: string -> Outcome<seq<Piece>>, projectId: string,
                                            dataset: string, t: Option<Stamp>, available: seq<Stamp>,
                                            parse: string -> Option<Stamp>, execute: string -> bool)
    requires FromWarehouse(available)
    requires t.Some? ==> ValidDateTime(t.value.moment)
    requires forall i, j :: 0 <= i < j < |views| ==> views[i].name != views[j].name
    ensures var results := ViewResults(views, files, projectId, dataset, t, available, parse, execute);
            forall i :: 0 <= i < |views| ==>
              && views[i].name in results
              && results[views[i].name] == CreateView(files(views[i].file), projectId, dataset, t, available,
                                                      parse, execute)
  {
    if views != [] {
      var init := views[..|views| - 1];
      EachViewReported(init, files, projectId, dataset, t, available, parse, execute);
      var results := ViewResults(views, files, projectId, dataset, t, available, parse, execute);
      var v := views[|views| - 1];
      forall i | 0 <= i < |views| - 1
        ensures views[i].name in results
        ensures results[views[i].name] == CreateView(files(views[i].file), projectId, dataset, t, available,
                                                     parse, execute)
      {
        assert views[i] == init[i] && views[i].name != v.name;
      }
    }
  }

  /** With distinct names the dict has exactly one entry per view. */
  lemma {:induction false} OneEntryPerView(views: seq<View>, files: string -> Outcome<seq<Piece>>, projectId: string,
                                           dataset: string, t: Option<Stamp>, available: seq<Stamp>,
                                           parse: string -> Option<Stamp>, execute: string -> bool)
    requires FromWarehouse(available)
    requires t.Some? ==> ValidDateTime(t.value.moment)
    requires forall i, j :: 0 <= i < j < |views| ==> views[i].name != views[j].name
    ensures |ViewResults(views, files, projectId, dataset, t, available, parse, execute)| == |views|
  {
    if views != [] {
      var init := views[..|views| - 1];
      OneEntryPerView(init, files, projectId, dataset, t, available, parse, execute);
      ViewResultsKeys(init, files, projectId, dataset, t, available, parse, execute);
      var prev := ViewResults(init, files, projectId, dataset, t, available, parse, execute);
      var v := views[|views| - 1];
      assert v.name !in prev;
    }
  }

  lemma {:induction false} ViewResultsKeys(views: seq<View>, files: string -> Outcome<seq<Piece>>, projectId: string,
                                           dataset: string, t: Option<Stamp>, available: seq<Stamp>,
                                           parse: string -> Option<Stamp>, execute: string -> bool)
    requires FromWarehouse(available)
    requires t.Some? ==> ValidDateTime(t.value.moment)
    ensures forall k :: k in ViewResults(views, files, projectId, dataset, t, available, parse, execute) ==>
                        exists i :: 0 <= i < |views| && views[i].name == k
    ensures forall i :: 0 <= i < |views| ==>
                        views[i].name in ViewResults(views, files, projectId, dataset, t, available, parse, execute)
  {
    if views != [] {
      var init := views[..|views| - 1];
      ViewResultsKeys(init, files, projectId, dataset, t, available, parse, execute);
      var prev := ViewResults(init, files, projectId, dataset, t, available, parse, execute);
      var results := ViewResults(views, files, projectId, dataset, t, available, parse, execute);
      forall k | k in results ensures exists i :: 0 <= i < |views| && views[i].name == k {
        if k in prev {
          var i :| 0 <= i < |init| && init[i].name == k;
          assert views[i] == init[i];
        } else {
          assert views[|views| - 1].name == k;
        }
      }
      forall i | 0 <= i < |views| ensures views[i].name in results {
        if i < |init| {
          assert init[i] == views[i];
        }
      }
    }
  }

  /**
   * `transform_data`: the timestamp is selected once, then every view is created with
   * it and its outcome recorded under the view's name.
   */
  method TransformData(requested: Option<string>, available: seq<Stamp>, parse: string -> Option<Stamp>,
                       views: seq<View>, files: string -> Outcome<seq<Piece>>, projectId: string, dataset: string,
                       execute: string -> bool)
    returns (selected: Option<Stamp>, results: map<string, bool>)
    requires FromWarehouse(available)
    ensures selected == SelectTimestamp(requested, available, parse)
    ensures results == ViewResults(views, files, projectId, dataset, selected, available, parse, execute)
  {
    selected := SelectTimestamp(requested, available, parse);
    results := map[];
    var i := 0;
    while i < |views|
      invariant 0 <= i <= |views|
      invariant results == ViewResults(views[..i], files, projectId, dataset, selected, available, parse, execute)
    {
      var ok := CreateView(files(views[i].file), projectId, dataset, selected, available, parse, execute);
      results := results[views[i].name := ok];
      assert views[..i + 1][..i] == views[..i];
      i := i + 1;
    }
    assert views[..i] == views;
  }
}
