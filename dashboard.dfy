/**
 * The dashboard's own view of the batches: a second, laxer reader of the object names
 * that takes the text after the first `__` up to the next `.` as the batch timestamp,
 * a counter of stored objects per source, and the choices offered to the operator on
 * the load and transform pages, where "most recent" stands for no hint at all.
 */
module Dashboard {
  import opened Common
  import opened Keys
  import opened Transform

  // ---------------------------------------------------------------------------
  // Reading a name
  // ---------------------------------------------------------------------------

  /** `name.split('__')[1]` when the split yields at least two parts. */
  function SecondPart(name: string): (r: Option<string>)
    ensures r.Some? <==> Contains(name, "__")
  {
    match Find(name, "__")
    case None => None
    case Some(i) =>
      match FindFrom(name, "__", i + 2)
      case None => Some(name[i + 2..])
      case Some(j) => Some(name[i + 2..j])
  }

  /** `s.split('.')[0]`: the text before the first dot. */
  function BeforeDot(s: string): (r: string)
    ensures '.' !in r && StartsWith(s, r)
    ensures r == s || s[|r|] == '.'
  {
    if '.' in s then s[..IndexOf(s, '.')] else s
  }

  /** The timestamp part the dashboard reads from a name, if the name holds a `__`. */
  function TimestampPart(name: string): Option<string>
  {
    match SecondPart(name)
    case None => None
    case Some(p) => Some(BeforeDot(p))
  }

  /** `date, time = s.split('_')`: succeeds exactly when `s` holds one underscore. */
  function SplitOnce(s: string): (r: Option<(string, string)>)
    ensures r.Some? <==> multiset(s)['_'] == 1
    ensures r.Some? ==> s == r.value.0 + "_" + r.value.1 && '_' !in r.value.0 && '_' !in r.value.1
  {
    if multiset(s)['_'] != 1 then None
    else
      var k := IndexOf(s, '_');
      assert s == s[..k] + [s[k]] + s[k + 1..];
      assert multiset(s) == multiset(s[..k]) + multiset{'_'} + multiset(s[k + 1..]);
      Some((s[..k], s[k + 1..]))
  }

  /** A batch as the dashboard lists it: its timestamp, date, and time written with colons. */
  datatype Batch = Batch(timestamp: string, date: string, time: string)

  /** The entry made for a timestamp part, unless its date/time split fails. */
  function BatchOf(part: string): Option<Batch>
  {
    match SplitOnce(part)
    case None => None
    case Some((date, time)) => Some(Batch(part, date, ReplaceChar(time, '-', ':')))
  }

  // ---------------------------------------------------------------------------
  // The listing
  // ---------------------------------------------------------------------------

  /** The lister's state: the timestamp parts already met and the batches collected. */
  datatype Scan = Scan(seen: set<string>, batches: seq<Batch>)

  /** One name, given by its timestamp part: the part is marked as met before its split
      is tried, so each part is considered once and a part whose split fails is dropped. */
  function ScanStep(st: Scan, part: Option<string>): Scan
  {
    match part
    case None => st
    case Some(p) =>
      if p in st.seen then st
      else Scan(st.seen + {p}, match BatchOf(p) case None => st.batches case Some(b) => st.batches + [b])
  }

  function ScanAll(names: seq<string>): Scan
  {
    if names == [] then Scan({}, [])
    else ScanStep(ScanAll(names[..|names| - 1]), TimestampPart(names[|names| - 1]))
  }

  /** No two batches share a timestamp. */
  predicate DistinctStamps(bs: seq<Batch>)
  {
    forall i, j :: 0 <= i < j < |bs| ==> bs[i].timestamp != bs[j].timestamp
  }

  /** Strictly descending by timestamp in Python's string order. */
  predicate StrictlyDescending(bs: seq<Batch>)
  {
    forall i, j :: 0 <= i < j < |bs| ==> LexLe(bs[j].timestamp, bs[i].timestamp) && bs[i].timestamp != bs[j].timestamp
  }

  /** Some name of `names` yields the timestamp part `p`. */
  predicate PartOf(names: seq<string>, p: string)
  {
    exists i :: 0 <= i < |names| && TimestampPart(names[i]) == Some(p)
  }

  /** What the scan keeps: each collected batch is the entry of a met part, each met part
      with an entry has it collected, and no timestamp is collected twice. */
  ghost predicate Consistent(st: Scan)
  {
    && (forall b :: b in st.batches ==> b.timestamp in st.seen && BatchOf(b.timestamp) == Some(b))
    && (forall p :: p in st.seen && BatchOf(p).Some? ==> BatchOf(p).value in st.batches)
    && DistinctStamps(st.batches)
  }

  lemma StepConsistent(st: Scan, part: Option<string>)
    requires Consistent(st)
    ensures Consistent(ScanStep(st, part))
  {
    if part.Some? && part.value !in st.seen && BatchOf(part.value).Some? {
      AddBatchConsistent(st, part.value, BatchOf(part.value).value);
    }
  }

  /** Collecting the entry of a part not met before keeps the scan consistent. */
  lemma AddBatchConsistent(st: Scan, p: string, b: Batch)
    requires Consistent(st) && p !in st.seen && BatchOf(p) == Some(b)
    ensures Consistent(Scan(st.seen + {p}, st.batches + [b]))
  {
    assert b.timestamp == p;
    AppendDistinctStamp(st.batches, st.seen, b);
    var bs := st.batches + [b];
    forall c | c in bs ensures c.timestamp in st.seen + {p} && BatchOf(c.timestamp) == Some(c) {
      if c != b {
        assert c in st.batches;
      }
    }
  }

  /** A batch whose timestamp was not met before is distinct from every collected one. */
  lemma AppendDistinctStamp(bs: seq<Batch>, seen: set<string>, b: Batch)
    requires DistinctStamps(bs) && b.timestamp !in seen
    requires forall c :: c in bs ==> c.timestamp in seen
    ensures DistinctStamps(bs + [b])
  {
    var bs' := bs + [b];
    forall i, j | 0 <= i < j < |bs'| ensures bs'[i].timestamp != bs'[j].timestamp {
      assert bs'[i] == bs[i] && bs[i] in bs;
      if j < |bs| {
        assert bs'[j] == bs[j];
      }
    }
  }

  /** The scan of any listing is consistent. */
  lemma {:induction false} ScanConsistent(names: seq<string>)
    ensures Consistent(ScanAll(names))
  {
    if names != [] {
      ScanConsistent(names[..|names| - 1]);
      StepConsistent(ScanAll(names[..|names| - 1]), TimestampPart(names[|names| - 1]));
    }
  }

  /** The parts met by the scan are exactly the parts of the listed names. */
  lemma {:induction false} ScanSeen(names: seq<string>)
    ensures forall p :: p in ScanAll(names).seen <==> PartOf(names, p)
  {
    if names != [] {
      var init := names[..|names| - 1];
      var last := TimestampPart(names[|names| - 1]);
      ScanSeen(init);
      assert ScanAll(names) == ScanStep(ScanAll(init), last);
      StepSeen(ScanAll(init), last);
      forall p ensures p in ScanAll(names).seen <==> PartOf(names, p) {
        PartOfLast(names, p);
      }
    }
  }

  /** A step marks its part, if any, as met, and nothing else. */
  lemma StepSeen(st: Scan, part: Option<string>)
    ensures ScanStep(st, part).seen == if part.Some? then st.seen + {part.value} else st.seen
  {
  }

  /** A part belongs to a listing exactly when it belongs to all names but the last, or
      is the last one's. */
  lemma PartOfLast(names: seq<string>, p: string)
    requires names != []
    ensures PartOf(names, p) <==> PartOf(names[..|names| - 1], p) || TimestampPart(names[|names| - 1]) == Some(p)
  {
    YieldsLast(names, names[..|names| - 1], TimestampPart, p);
  }

  /** Some element yields `p` exactly when one of all but the last does, or the last does. */
  lemma YieldsLast<T>(xs: seq<T>, init: seq<T>, f: T -> Option<string>, p: string)
    requires xs != [] && init == xs[..|xs| - 1]
    ensures (exists i :: 0 <= i < |xs| && f(xs[i]) == Some(p))
            <==> (exists i :: 0 <= i < |init| && f(init[i]) == Some(p)) || f(xs[|xs| - 1]) == Some(p)
  {
    var n := |xs| - 1;
    if exists i :: 0 <= i < |xs| && f(xs[i]) == Some(p) {
      var i :| 0 <= i < |xs| && f(xs[i]) == Some(p);
      if i < n {
        assert init[i] == xs[i];
      }
    }
    if exists i :: 0 <= i < n && f(init[i]) == Some(p) {
      var i :| 0 <= i < n && f(init[i]) == Some(p);
      assert xs[i] == init[i];
    }
  }

  // ---------------------------------------------------------------------------
  // `batchs.sort(key=timestamp, reverse=True)`
  // ---------------------------------------------------------------------------

  function Insert(b: Batch, bs: seq<Batch>): (r: seq<Batch>)
    ensures multiset(r) == multiset(bs) + multiset{b}
  {
    if bs == [] || LexLe(bs[0].timestamp, b.timestamp) then [b] + bs
    else
      assert bs == [bs[0]] + bs[1..];
      [bs[0]] + Insert(b, bs[1..])
  }

  function SortDescending(bs: seq<Batch>): (r: seq<Batch>)
    ensures multiset(r) == multiset(bs)
  {
    if bs == [] then []
    else
      assert bs == [bs[0]] + bs[1..];
      Insert(bs[0], SortDescending(bs[1..]))
  }

  /** Putting a batch later than all of a strictly descending sequence in front keeps it strictly descending. */
  lemma ConsStrictly(h: Batch, rest: seq<Batch>)
    requires StrictlyDescending(rest)
    requires forall x :: x in rest ==> LexLe(x.timestamp, h.timestamp) && x.timestamp != h.timestamp
    ensures StrictlyDescending([h] + rest)
  {
    var r := [h] + rest;
    forall i, j | 0 <= i < j < |r|
      ensures LexLe(r[j].timestamp, r[i].timestamp) && r[i].timestamp != r[j].timestamp
    {
      assert r[j] == rest[j - 1];
      if i > 0 {
        assert r[i] == rest[i - 1];
      }
    }
  }

  lemma {:induction false} InsertStrictly(b: Batch, bs: seq<Batch>)
    requires StrictlyDescending(bs)
    requires forall x :: x in bs ==> x.timestamp != b.timestamp
    ensures StrictlyDescending(Insert(b, bs))
  {
    if bs == [] {
    } else if LexLe(bs[0].timestamp, b.timestamp) {
      forall x | x in bs ensures LexLe(x.timestamp, b.timestamp) {
        var j :| 0 <= j < |bs| && bs[j] == x;
        if j > 0 {
          LexLeTransitive(bs[j].timestamp, bs[0].timestamp, b.timestamp);
        }
      }
      ConsStrictly(b, bs);
    } else {
      var tail := bs[1..];
      var rest := Insert(b, tail);
      assert StrictlyDescending(tail) by {
        forall i, j | 0 <= i < j < |tail|
          ensures LexLe(tail[j].timestamp, tail[i].timestamp) && tail[i].timestamp != tail[j].timestamp
        {
          assert tail[i] == bs[i + 1] && tail[j] == bs[j + 1];
        }
      }
      InsertStrictly(b, tail);
      LexLeTotal(bs[0].timestamp, b.timestamp);
      forall x | x in rest ensures LexLe(x.timestamp, bs[0].timestamp) && x.timestamp != bs[0].timestamp {
        assert x in multiset(rest);
        if x != b {
          var j :| 0 <= j < |tail| && tail[j] == x;
          assert bs[j + 1] == x;
        }
      }
      ConsStrictly(bs[0], rest);
    }
  }

  /** Sorting batches with distinct timestamps orders them strictly, most recent first. */
  lemma {:induction false} SortStrictly(bs: seq<Batch>)
    requires DistinctStamps(bs)
    ensures StrictlyDescending(SortDescending(bs))
  {
    if bs != [] {
      var tail := bs[1..];
      assert DistinctStamps(tail) by {
        forall i, j | 0 <= i < j < |tail| ensures tail[i].timestamp != tail[j].timestamp {
          assert tail[i] == bs[i + 1] && tail[j] == bs[j + 1];
        }
      }
      SortStrictly(tail);
      forall x | x in SortDescending(tail) ensures x.timestamp != bs[0].timestamp {
        assert x in multiset(SortDescending(tail));
        assert x in tail;
        var j :| 0 <= j < |tail| && tail[j] == x;
        assert bs[j + 1] == x;
      }
      InsertStrictly(bs[0], SortDescending(tail));
    }
  }

  /** The batches `lister_batchs_disponibles` returns for a successful listing. */
  function ListedBatches(names: seq<string>): seq<Batch>
  {
    SortDescending(ScanAll(names).batches)
  }

  /** The listed batches are distinct and sorted, most recent timestamp first. */
  lemma ListedStrictlyDescending(names: seq<string>)
    ensures StrictlyDescending(ListedBatches(names))
  {
    ScanConsistent(names);
    SortStrictly(ScanAll(names).batches);
  }

  /** A batch is listed exactly when some name yields its timestamp and that timestamp splits into it. */
  lemma ListedExactly(names: seq<string>, b: Batch)
    ensures b in ListedBatches(names) <==> PartOf(names, b.timestamp) && BatchOf(b.timestamp) == Some(b)
  {
    ScanConsistent(names);
    ScanSeen(names);
    var found := ScanAll(names).batches;
    assert b in ListedBatches(names) <==> b in found by {
      assert b in multiset(ListedBatches(names)) <==> b in multiset(found);
    }
  }

  /**
   * `lister_batchs_disponibles`: the listing's names are scanned in order, then sorted by
   * timestamp, most recent first; a listing that raises gives no batches.
   */
  method ListAvailableBatches(listing: Outcome<seq<string>>) returns (batches: seq<Batch>)
    ensures listing.Raised? ==> batches == []
    ensures listing.Returned? ==> batches == ListedBatches(listing.value)
  {
    if listing.Raised? {
      return [];
    }
    var names := listing.value;
    var seen: set<string> := {};
    var found: seq<Batch> := [];
    for i := 0 to |names|
      invariant Scan(seen, found) == ScanAll(names[..i])
    {
      var part := TimestampPart(names[i]);
      assert ScanAll(names[..i + 1]) == ScanStep(ScanAll(names[..i]), part) by {
        assert names[..i + 1][..i] == names[..i];
      }
      if part.Some? && part.value !in seen {
        var p := part.value;
        seen := seen + {p};
        var split := SplitOnce(p);
        if split.Some? {
          found := found + [Batch(p, split.value.0, ReplaceChar(split.value.1, '-', ':'))];
        }
      }
    }
    assert names[..|names|] == names;
    batches := SortDescending(found);
  }

  // ---------------------------------------------------------------------------
  // Names the downloader writes
  // ---------------------------------------------------------------------------

  /** The characters of a date or time group are digits and dashes. */
  lemma PatternChars(s: string)
    requires DatePattern(s) || TimePattern(s)
    ensures forall k :: 0 <= k < |s| ==> IsDigit(s[k]) || s[k] == '-'
  {
    forall k | 0 <= k < |s| ensures IsDigit(s[k]) || s[k] == '-' {
      if DatePattern(s) {
        if k < 4 { assert s[..4][k] == s[k]; }
        else if 5 <= k < 7 { assert s[5..7][k - 5] == s[k]; }
        else if k >= 8 { assert s[8..][k - 8] == s[k]; }
      } else {
        if k < 2 { assert s[..2][k] == s[k]; }
        else if 3 <= k < 5 { assert s[3..5][k - 3] == s[k]; }
        else if k >= 6 { assert s[6..][k - 6] == s[k]; }
      }
    }
  }

  /** In `<date>_<time>.<ext>` the only underscore is the separator and the first dot ends the time. */
  lemma TailChars(date: string, time: string, ext: string)
    requires DatePattern(date) && TimePattern(time) && '_' !in ext
    ensures var tail := date + "_" + time + "." + ext;
            && (forall k :: 0 <= k < |tail| && tail[k] == '_' ==> k == 10)
            && (forall k :: 0 <= k < 19 ==> tail[k] != '.')
            && tail[19] == '.'
  {
    PatternChars(date);
    PatternChars(time);
    var tail := date + "_" + time + "." + ext;
    forall k | 0 <= k < |tail| ensures (tail[k] == '_' ==> k == 10) && (k < 19 ==> tail[k] != '.') {
      if k < 10 { assert tail[k] == date[k]; }
      else if 11 <= k < 19 { assert tail[k] == time[k - 11]; }
      else if k > 19 { assert tail[k] == ext[k - 20]; }
    }
  }

  /** After the separator, the tail `<date>_<time>.<ext>` holds no further `__`. */
  lemma NoPairInTail(name: string, start: nat, date: string, time: string, ext: string)
    requires DatePattern(date) && TimePattern(time) && '_' !in ext
    requires start <= |name| && name[start..] == date + "_" + time + "." + ext
    ensures forall j :: start <= j ==> !OccursAt(name, "__", j)
  {
    TailChars(date, time, ext);
    var tail := date + "_" + time + "." + ext;
    forall j | start <= j ensures !OccursAt(name, "__", j) {
      if j + 2 <= |name| {
        var k := j - start;
        assert name[j] == tail[k] && name[j + 1] == tail[k + 1];
        assert name[j..j + 2] == [tail[k], tail[k + 1]];
      }
    }
  }

  /** The first `__` of `<body>__<tail>` is the separator when the body holds none and does not end in `_`. */
  lemma FirstPairAt(body: string, tail: string)
    requires !Contains(body, "__") && (body == [] || body[|body| - 1] != '_')
    ensures Find(body + "__" + tail, "__") == Some(|body|)
  {
    var name := body + "__" + tail;
    var n := |body|;
    assert name[n..n + 2] == "__";
    assert OccursAt(name, "__", n);
    forall j | 0 <= j < n ensures !OccursAt(name, "__", j) {
      if j < n - 1 {
        assert name[j..j + 2] == body[j..j + 2];
        assert !OccursAt(body, "__", j);
      } else {
        assert name[j] == body[n - 1];
        assert name[j..j + 2] == [name[j], name[j + 1]];
      }
    }
  }

  lemma SecondPartOfStored(body: string, date: string, time: string, ext: string)
    requires !Contains(body, "__") && (body == [] || body[|body| - 1] != '_')
    requires DatePattern(date) && TimePattern(time) && '_' !in ext
    ensures SecondPart(body + "__" + (date + "_" + time + "." + ext)) == Some(date + "_" + time + "." + ext)
  {
    var tail := date + "_" + time + "." + ext;
    var name := body + "__" + tail;
    FirstPairAt(body, tail);
    assert name[|body| + 2..] == tail;
    NoPairInTail(name, |body| + 2, date, time, ext);
  }

  lemma BeforeDotOfTail(date: string, time: string, ext: string)
    requires DatePattern(date) && TimePattern(time) && '_' !in ext
    ensures BeforeDot(date + "_" + time + "." + ext) == date + "_" + time
  {
    TailChars(date, time, ext);
    var tail := date + "_" + time + "." + ext;
    assert IndexOf(tail, '.') == 19;
    assert tail[..19] == date + "_" + time;
  }

  /** Text with one underscore splits around it. */
  lemma SplitAtSeparator(d: string, t: string)
    requires '_' !in d && '_' !in t
    ensures SplitOnce(d + "_" + t) == Some((d, t))
  {
    var s := d + "_" + t;
    assert multiset(s) == multiset(d) + multiset{'_'} + multiset(t);
    var x := SplitOnce(s).value.0;
    assert s[|d|] == '_' && s[|x|] == '_';
    assert x == s[..|d|] == d;
  }

  /** The timestamp part of `<body>__<date>_<time>.<ext>` is `<date>_<time>`. */
  lemma TimestampPartOfStored(body: string, date: string, time: string, ext: string)
    requires !Contains(body, "__") && (body == [] || body[|body| - 1] != '_')
    requires DatePattern(date) && TimePattern(time) && '_' !in ext
    ensures TimestampPart(body + "__" + (date + "_" + time + "." + ext)) == Some(date + "_" + time)
  {
    SecondPartOfStored(body, date, time, ext);
    BeforeDotOfTail(date, time, ext);
  }

  /** The dashboard splits a batch key into the key's date and its time written with colons. */
  lemma BatchOfKey(dt: DateTime)
    requires ValidDateTime(dt)
    ensures BatchOf(BatchKey(dt)) == Some(Batch(BatchKey(dt), DateString(dt), ClockString(dt)))
  {
    PatternChars(DateString(dt));
    PatternChars(TimeString(dt));
    SplitAtSeparator(DateString(dt), TimeString(dt));
  }

  /** A stored name is its body, the separator pair and its tail; the body ends with the
      source's last character, or with the slash before an empty source. */
  lemma StoredNameShape(raw: string, year: string, month: string, source: string, date: string, time: string,
                        ext: string)
    requires source == [] || source[|source| - 1] != '_'
    ensures StorageName(raw, year, month, source, date, time, ext)
            == StorageBody(raw, year, month, source) + "__" + (date + "_" + time + "." + ext)
    ensures var body := StorageBody(raw, year, month, source); body == [] || body[|body| - 1] != '_'
  {
    var body := StorageBody(raw, year, month, source);
    assert body == (raw + "/" + year + "-" + month + "/") + source;
    assert body[|body| - 1] == (if source == [] then '/' else source[|source| - 1]);
  }

  /**
   * The dashboard reads back the loader's key from a name the downloader writes, as
   * long as the part in front of the tail holds no `__` and does not end in `_`.
   */
  lemma DashboardReadsLoaderKey(raw: string, year: string, month: string, source: string, dt: DateTime, ext: string)
    requires ValidDateTime(dt) && (ext == "parquet" || ext == "csv")
    requires !Contains(StorageBody(raw, year, month, source), "__")
    requires source == [] || source[|source| - 1] != '_'
    ensures var name := StorageName(raw, year, month, source, DateString(dt), TimeString(dt), ext);
            && TimestampPart(name) == Some(BatchKey(dt))
            && BatchOf(BatchKey(dt)) == Some(Batch(BatchKey(dt), DateString(dt), ClockString(dt)))
  {
    StoredNameShape(raw, year, month, source, DateString(dt), TimeString(dt), ext);
    TimestampPartOfStored(StorageBody(raw, year, month, source), DateString(dt), TimeString(dt), ext);
    BatchOfKey(dt);
  }

  /** Once a name the downloader writes is listed, the dashboard offers its batch under the loader's key. */
  lemma StoredBatchListed(names: seq<string>, raw: string, year: string, month: string, source: string, dt: DateTime,
                          ext: string)
    requires ValidDateTime(dt) && (ext == "parquet" || ext == "csv")
    requires !Contains(StorageBody(raw, year, month, source), "__")
    requires source == [] || source[|source| - 1] != '_'
    requires StorageName(raw, year, month, source, DateString(dt), TimeString(dt), ext) in names
    ensures Batch(BatchKey(dt), DateString(dt), ClockString(dt)) in ListedBatches(names)
  {
    DashboardReadsLoaderKey(raw, year, month, source, dt, ext);
    var i :| 0 <= i < |names| && names[i] == StorageName(raw, year, month, source, DateString(dt), TimeString(dt), ext);
    assert PartOf(names, BatchKey(dt));
    ListedExactly(names, Batch(BatchKey(dt), DateString(dt), ClockString(dt)));
  }

  // ---------------------------------------------------------------------------
  // Counting stored objects
  // ---------------------------------------------------------------------------

  /** The counts shown on the home page. */
  datatype Counts = Counts(ratios: nat, stock: nat, total: nat)

  /** Names counted as ratios files: those containing `ratios_inpi`. */
  function RatiosCount(names: seq<string>): nat
  {
    if names == [] then 0
    else RatiosCount(names[..|names| - 1]) + (if Contains(names[|names| - 1], "ratios_inpi") then 1 else 0)
  }

  /** Names counted as stock files: those containing `stock_entreprises` but not `ratios_inpi`. */
  function StockCount(names: seq<string>): nat
  {
    if names == [] then 0
    else
      var name := names[|names| - 1];
      StockCount(names[..|names| - 1])
      + (if !Contains(name, "ratios_inpi") && Contains(name, "stock_entreprises") then 1 else 0)
  }

  /** Each name is counted at most once, so the total never exceeds the number of names. */
  lemma {:induction false} CountsBounded(names: seq<string>)
    ensures RatiosCount(names) + StockCount(names) <= |names|
  {
    if names != [] {
      CountsBounded(names[..|names| - 1]);
    }
  }

  /** The counts of two listings together are the sums of their counts. */
  lemma {:induction false} CountsAdd(a: seq<string>, b: seq<string>)
    ensures RatiosCount(a + b) == RatiosCount(a) + RatiosCount(b)
    ensures StockCount(a + b) == StockCount(a) + StockCount(b)
  {
    if b != [] {
      assert (a + b)[..|a + b| - 1] == a + b[..|b| - 1];
      assert (a + b)[|a + b| - 1] == b[|b| - 1];
      CountsAdd(a, b[..|b| - 1]);
    } else {
      assert a + b == a;
    }
  }

  /**
   * `compter_batchs_gcs`: one pass over the listing, a name counting as ratios if it
   * contains `ratios_inpi`, otherwise as stock if it contains `stock_entreprises`; a
   * listing that raises gives zeros.
   */
  method CountBatches(listing: Outcome<seq<string>>) returns (counts: Counts)
    ensures listing.Raised? ==> counts == Counts(0, 0, 0)
    ensures listing.Returned? ==>
              counts == Counts(RatiosCount(listing.value), StockCount(listing.value),
                               RatiosCount(listing.value) + StockCount(listing.value))
  {
    if listing.Raised? {
      return Counts(0, 0, 0);
    }
    var names := listing.value;
    var ratios, stock := 0, 0;
    for i := 0 to |names|
      invariant ratios == RatiosCount(names[..i]) && stock == StockCount(names[..i])
    {
      assert names[..i + 1][..i] == names[..i];
      if Contains(names[i], "ratios_inpi") {
        ratios := ratios + 1;
      } else if Contains(names[i], "stock_entreprises") {
        stock := stock + 1;
      }
    }
    assert names[..|names|] == names;
    counts := Counts(ratios, stock, ratios + stock);
  }

  // ---------------------------------------------------------------------------
  // The choices offered on the load and transform pages
  // ---------------------------------------------------------------------------

  const MostRecent: string := "Plus récent (recommandé)"

  /** `xs[:20]`: the entries shown in a selector. */
  function FirstTwenty<T>(xs: seq<T>): (r: seq<T>)
    ensures |r| == if |xs| < 20 then |xs| else 20
    ensures forall i :: 0 <= i < |r| ==> r[i] == xs[i]
  {
    if |xs| <= 20 then xs else xs[..20]
  }

  /** A selector: its labels and the dict from label to the hint passed on. */
  datatype Choices = Choices(options: seq<string>, hints: map<string, Option<string>>)

  /** `{MostRecent: None}` updated with `label: value` for each shown entry, in order. */
  function HintMap(pairs: seq<(string, string)>): (r: map<string, Option<string>>)
    ensures MostRecent in r
    ensures forall i :: 0 <= i < |pairs| ==> pairs[i].0 in r
  {
    if pairs == [] then map[MostRecent := None]
    else
      var init := pairs[..|pairs| - 1];
      assert forall i :: 0 <= i < |init| ==> init[i] == pairs[i];
      HintMap(init)[pairs[|pairs| - 1].0 := Some(pairs[|pairs| - 1].1)]
  }

  /** The selector for the shown entries: "most recent" first, then their labels. */
  function Selector(pairs: seq<(string, string)>): (c: Choices)
    ensures |c.options| == |pairs| + 1 && c.options[0] == MostRecent
    ensures forall k :: 0 <= k < |pairs| ==> c.options[k + 1] == pairs[k].0
  {
    Choices([MostRecent] + seq(|pairs|, i requires 0 <= i < |pairs| => pairs[i].0), HintMap(pairs))
  }

  /** A label no later entry repeats passes on its own value. */
  lemma {:induction false} HintOfLabel(pairs: seq<(string, string)>, i: nat)
    requires i < |pairs|
    requires forall j :: i < j < |pairs| ==> pairs[j].0 != pairs[i].0
    ensures pairs[i].0 in HintMap(pairs) && HintMap(pairs)[pairs[i].0] == Some(pairs[i].1)
  {
    if i < |pairs| - 1 {
      var init := pairs[..|pairs| - 1];
      assert init[i] == pairs[i];
      forall j | i < j < |init| ensures init[j].0 != init[i].0 {
        assert init[j] == pairs[j];
      }
      HintOfLabel(init, i);
    }
  }

  /** "Most recent" passes on no hint unless an entry carries the same label. */
  lemma {:induction false} MostRecentHint(pairs: seq<(string, string)>)
    requires forall j :: 0 <= j < |pairs| ==> pairs[j].0 != MostRecent
    ensures HintMap(pairs)[MostRecent] == None
  {
    if pairs != [] {
      var init := pairs[..|pairs| - 1];
      forall j | 0 <= j < |init| ensures init[j].0 != MostRecent {
        assert init[j] == pairs[j];
      }
      MostRecentHint(init);
    }
  }

  /** The label of a batch on the load page. */
  function BatchLabel(b: Batch): string
  {
    b.date + " à " + b.time
  }

  /** No batch label reads "most recent": every label has an `à` where that text has none. */
  lemma NoLabelIsMostRecent(b: Batch)
    ensures BatchLabel(b) != MostRecent
  {
    var k := |b.date| + 1;
    assert BatchLabel(b) == b.date + " à " + b.time;
    assert BatchLabel(b)[k] == 'à';
    assert 'à' !in MostRecent;
    assert k >= |MostRecent| || MostRecent[k] != 'à';
  }

  function BatchPairs(batches: seq<Batch>): (r: seq<(string, string)>)
    ensures |r| == |FirstTwenty(batches)|
    ensures forall i :: 0 <= i < |r| ==> r[i] == (BatchLabel(batches[i]), batches[i].timestamp)
  {
    var shown := FirstTwenty(batches);
    seq(|shown|, i requires 0 <= i < |shown| => (BatchLabel(shown[i]), shown[i].timestamp))
  }

  /** The load page's selector: none when no batch is listed. */
  function LoadPage(batches: seq<Batch>): Option<Choices>
  {
    if batches == [] then None else Some(Selector(BatchPairs(batches)))
  }

  /**
   * On the load page "most recent" passes no timestamp to the loader, so the loader
   * picks the latest batch itself; every other label passes the timestamp of the batch
   * it shows (the last one shown under that label).
   */
  lemma LoadPageHints(batches: seq<Batch>, i: nat)
    requires batches != [] && i < |FirstTwenty(batches)|
    requires forall j :: i < j < |FirstTwenty(batches)| ==>
               BatchLabel(FirstTwenty(batches)[j]) != BatchLabel(FirstTwenty(batches)[i])
    ensures var page := LoadPage(batches).value;
            && page.options[0] == MostRecent && page.hints[MostRecent] == None
            && page.options[i + 1] == BatchLabel(batches[i])
            && page.hints[BatchLabel(batches[i])] == Some(batches[i].timestamp)
  {
    var shown := FirstTwenty(batches);
    var pairs := BatchPairs(batches);
    forall j | 0 <= j < |pairs| ensures pairs[j].0 != MostRecent {
      NoLabelIsMostRecent(shown[j]);
    }
    MostRecentHint(pairs);
    HintOfLabel(pairs, i);
  }

  /** The label of a timestamp on the transform page: `strftime('%Y-%m-%d %H:%M:%S')`. */
  function StampLabel(t: Stamp): string
    requires ValidDateTime(t.moment)
  {
    DateString(t.moment) + " " + ClockString(t.moment)
  }

  /** Timestamps of the warehouse with the same label are the same timestamp. */
  lemma StampLabelInjective(a: Stamp, b: Stamp)
    requires ValidDateTime(a.moment) && ValidDateTime(b.moment) && a.utc == b.utc
    requires StampLabel(a) == StampLabel(b)
    ensures a == b
  {
    var la, lb := StampLabel(a), StampLabel(b);
    assert DateString(a.moment) == la[..10] == lb[..10] == DateString(b.moment);
    assert ClockString(a.moment) == la[11..] == lb[11..] == ClockString(b.moment);
    ClockInjective(a.moment, b.moment);
    assert BatchKey(a.moment) == BatchKey(b.moment);
    BatchKeyInjective(a.moment, b.moment);
  }

  function StampPairs(available: seq<Stamp>): (r: seq<(string, string)>)
    requires FromWarehouse(available)
    ensures |r| == |FirstTwenty(available)|
    ensures forall i :: 0 <= i < |r| ==> r[i] == (StampLabel(available[i]), IsoFormat(available[i]))
  {
    var shown := FirstTwenty(available);
    seq(|shown|, i requires 0 <= i < |shown| => (StampLabel(shown[i]), IsoFormat(shown[i])))
  }

  /** The transform page's selector: none when the warehouse holds no timestamp. */
  function TransformPage(available: seq<Stamp>): Option<Choices>
    requires FromWarehouse(available)
  {
    if available == [] then None else Some(Selector(StampPairs(available)))
  }

  /** On the transform page "most recent" passes no timestamp, and the transform then
      selects the most recent one. */
  lemma TransformPageMostRecent(available: seq<Stamp>, parse: string -> Option<Stamp>)
    requires FromWarehouse(available) && available != []
    ensures var page := TransformPage(available).value;
            && page.options[0] == MostRecent && page.hints[MostRecent] == None
            && SelectTimestamp(page.hints[MostRecent], available, parse) == Some(available[0])
  {
    var pairs := StampPairs(available);
    forall j | 0 <= j < |pairs| ensures pairs[j].0 != MostRecent {
      var d := DateString(available[j].moment);
      assert pairs[j].0[0] == d[0] == d[..4][0];
    }
    MostRecentHint(pairs);
  }

  /** The transform page shows no label twice. */
  lemma StampLabelsDistinct(available: seq<Stamp>)
    requires FromWarehouse(available)
    ensures var pairs := StampPairs(available);
            forall i, j :: 0 <= i < j < |pairs| ==> pairs[i].0 != pairs[j].0
  {
    var pairs := StampPairs(available);
    forall i, j | 0 <= i < j < |pairs| ensures pairs[i].0 != pairs[j].0 {
      if StampLabel(available[i]) == StampLabel(available[j]) {
        StampLabelInjective(available[i], available[j]);
      }
    }
  }

  /** Every other label on the transform page passes the ISO text of its own timestamp,
      which the transform then selects, provided `parse` reads ISO text back. */
  lemma TransformPageLabel(available: seq<Stamp>, i: nat, parse: string -> Option<Stamp>)
    requires FromWarehouse(available) && i < |FirstTwenty(available)|
    requires forall t :: t in available ==> parse(IsoFormat(t)) == Some(t)
    ensures var page := TransformPage(available).value;
            && page.options[i + 1] == StampLabel(available[i]) && StampLabel(available[i]) in page.hints
            && page.hints[StampLabel(available[i])] == Some(IsoFormat(available[i]))
            && SelectTimestamp(page.hints[StampLabel(available[i])], available, parse) == Some(available[i])
  {
    var t := available[i];
    TransformPageHint(available, i);
    IsoRequestSelectsIt(t, available, parse);
  }

  /** Every other label on the transform page passes the ISO text of its own timestamp. */
  lemma TransformPageHint(available: seq<Stamp>, i: nat)
    requires FromWarehouse(available) && i < |FirstTwenty(available)|
    ensures var page := TransformPage(available).value;
            && page.options[i + 1] == StampLabel(available[i]) && StampLabel(available[i]) in page.hints
            && page.hints[StampLabel(available[i])] == Some(IsoFormat(available[i]))
  {
    var pairs := StampPairs(available);
    var t := available[i];
    assert pairs[i] == (StampLabel(t), IsoFormat(t));
    assert TransformPage(available).value == Selector(pairs);
    StampLabelsDistinct(available);
    HintOfLabel(pairs, i);
  }
}
