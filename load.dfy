/**
 * Stage 2 (functions/step2_load.py): recover batch identities from storage object
 * names, group a listing by batch, pick one batch and drive one load per file of it,
 * stamping the loaded rows with the batch's moment.
 *
 * Storage is a snapshot `store` of every object name in the bucket, in listing order;
 * each warehouse load job is an outcome supplied by the caller.
 */
module Load {
  import opened Common
  import opened Keys
  import opened Template

  // ---------------------------------------------------------------------------
  // obtenir_nom_table
  // ---------------------------------------------------------------------------

  /** `pattern.format(source=source_name)` for the raw or transformed pattern; any other
      table type raises `ValueError`, a pattern hole other than `source` raises `KeyError`. */
  function TableName(source: string, tableType: string, rawPattern: seq<Piece>, transformedPattern: seq<Piece>)
    : (r: Outcome<string>)
    ensures tableType != "raw" && tableType != "transformed" ==> r.Raised?
    ensures tableType == "raw" ==> (r.Returned? <==> Bound(rawPattern, map["source" := source]))
    ensures tableType == "transformed" ==> (r.Returned? <==> Bound(transformedPattern, map["source" := source]))
  {
    var pattern := if tableType == "raw" then rawPattern else transformedPattern;
    if tableType != "raw" && tableType != "transformed" then Raised
    else match Fill(pattern, map["source" := source])
      case None => Raised
      case Some(name) => Returned(name)
  }

  lemma FillSourcePattern(prefix: string, source: string, suffix: string)
    ensures Fill([Lit(prefix), Field("source"), Lit(suffix)], map["source" := source]) == Some(prefix + source + suffix)
  {
    var p, env := [Lit(prefix), Field("source"), Lit(suffix)], map["source" := source];
    assert p[1..] == [Field("source"), Lit(suffix)] && p[1..][1..] == [Lit(suffix)] && p[1..][1..][1..] == [];
    assert Fill([Lit(suffix)], env) == Some(suffix + "");
    assert suffix + "" == suffix;
    assert prefix + (source + suffix) == prefix + source + suffix;
  }

  /** With a pattern `<prefix>{source}<suffix>`, every source gets its own table. */
  lemma TableNamesDistinct(s1: string, s2: string, tableType: string, prefix: string, suffix: string)
    requires tableType == "raw" || tableType == "transformed"
    requires s1 != s2
    ensures var p := [Lit(prefix), Field("source"), Lit(suffix)];
            var t1 := TableName(s1, tableType, p, p);
            var t2 := TableName(s2, tableType, p, p);
            t1.Returned? && t2.Returned? && t1.value != t2.value
  {
    FillSourcePattern(prefix, s1, suffix);
    FillSourcePattern(prefix, s2, suffix);
    var n1, n2 := prefix + s1 + suffix, prefix + s2 + suffix;
    if |s1| == |s2| {
      assert n1[|prefix|..|prefix| + |s1|] == s1;
      assert n2[|prefix|..|prefix| + |s2|] == s2;
    } else {
      assert |n1| != |n2|;
    }
  }

  // ---------------------------------------------------------------------------
  // extraire_infos_fichier
  // ---------------------------------------------------------------------------

  /** The six groups of `.*?/(\d{4})-(\d{2})/(.+?)__(\d{4}-\d{2}-\d{2})_(\d{2}-\d{2}-\d{2})\.(parquet|csv)$`. */
  datatype NameMatch = NameMatch(year: string, month: string, source: string, date: string, time: string, ext: string)

  /** The dictionary `extraire_infos_fichier` returns. */
  datatype FileInfo = FileInfo(source: string, year: string, month: string, date: string, time: string,
                               timestamp: string, datetime: DateTime, blobName: string)

  /** `None` for a name the pattern rejects, `BadDate` for the `ValueError` that `strptime`
      raises on digits that are not a calendar moment, the record otherwise. */
  datatype Extracted = NoMatch | BadDate | Info(info: FileInfo)

  /** `$` matches at the end of the text and also just before one final newline. */
  function StripFinalNewline(s: string): (t: string)
    ensures t == s || (s == t + "\n")
  {
    if |s| > 0 && s[|s| - 1] == '\n' then s[..|s| - 1] else s
  }

  function ExtensionAtEnd(t: string): (r: Option<string>)
    ensures r.Some? ==> (r.value == "parquet" || r.value == "csv") && EndsWith(t, "." + r.value)
    ensures r.None? ==> !EndsWith(t, ".parquet") && !EndsWith(t, ".csv")
  {
    if EndsWith(t, ".parquet") then Some("parquet")
    else if EndsWith(t, ".csv") then Some("csv")
    else None
  }

  /** `/(\d{4})-(\d{2})/` occurs at index `i` of `s`. */
  predicate PartitionAt(s: string, i: int)
  {
    0 <= i && i + 9 <= |s| && s[i] == '/' && AllDigits(s[i + 1..i + 5]) && s[i + 5] == '-'
    && AllDigits(s[i + 6..i + 8]) && s[i + 8] == '/'
  }

  /** The lazy `.*?` prefix: the first partition segment that leaves a non-empty source after it. */
  function FirstPartition(body: string, from: nat): (r: Option<nat>)
    ensures r.Some? ==> from <= r.value && r.value + 9 < |body| && PartitionAt(body, r.value)
    ensures r.Some? ==> forall j :: from <= j < r.value ==> !PartitionAt(body, j)
    ensures r.None? ==> forall j :: from <= j && j + 9 < |body| ==> !PartitionAt(body, j)
    decreases |body| - from
  {
    if from + 9 >= |body| then None
    else if PartitionAt(body, from) then Some(from)
    else FirstPartition(body, from + 1)
  }

  /** The groups after the lazy prefix, once the date and time have been split off. */
  function MatchBody(body: string, date: string, time: string, ext: string): (r: Option<NameMatch>)
    ensures r.Some? ==> r.value.source != [] && r.value.date == date && r.value.time == time && r.value.ext == ext
  {
    if '\n' in body then None
    else
      match FirstPartition(body, 0)
      case None => None
      case Some(i) => Some(NameMatch(body[i + 1..i + 5], body[i + 6..i + 8], body[i + 9..], date, time, ext))
  }

  /** The fixed-width tail `__<date>_<time>` of the text before the extension. */
  function MatchStem(u: string, ext: string): (r: Option<NameMatch>)
    ensures r.Some? ==> DatePattern(r.value.date) && TimePattern(r.value.time) && r.value.ext == ext
    ensures r.Some? ==> r.value.source != []
  {
    if |u| < 21 then None
    else
      var date, time := u[|u| - 19..|u| - 9], u[|u| - 8..];
      if u[|u| - 21..|u| - 19] != "__" || u[|u| - 9] != '_' || !DatePattern(date) || !TimePattern(time) then None
      else MatchBody(u[..|u| - 21], date, time, ext)
  }

  /** `re.match(pattern, blob_name)`, with `\d` read as an ASCII digit. */
  function MatchName(name: string): (r: Option<NameMatch>)
    ensures r.Some? ==> DatePattern(r.value.date) && TimePattern(r.value.time)
    ensures r.Some? ==> r.value.source != [] && (r.value.ext == "parquet" || r.value.ext == "csv")
  {
    var t := StripFinalNewline(name);
    match ExtensionAtEnd(t)
    case None => None
    case Some(ext) => MatchStem(t[..|t| - |ext| - 1], ext)
  }

  /** `extraire_infos_fichier`: the record of a storage object name.  The `YYYY-MM`
      partition segment is captured but never compared with the embedded date. */
  function ExtractFileInfo(name: string): (r: Extracted)
    ensures r.NoMatch? <==> MatchName(name).None?
    ensures r.BadDate? <==> (MatchName(name).Some?
                             && !ValidDateTime(FieldsOf(MatchName(name).value.date, MatchName(name).value.time)))
    ensures r.Info? ==> var m := MatchName(name).value;
                        && r.info.source == m.source && r.info.date == m.date && r.info.time == m.time
                        && r.info.year == m.year && r.info.month == m.month
                        && r.info.timestamp == m.date + "_" + m.time
                        && r.info.blobName == name
    ensures r.Info? ==> ValidDateTime(r.info.datetime) && r.info.timestamp == BatchKey(r.info.datetime)
  {
    match MatchName(name)
    case None => NoMatch
    case Some(m) =>
      var dt := FieldsOf(m.date, m.time);
      if !ValidDateTime(dt) then BadDate
      else
        FormattedFieldsOf(m.date, m.time);
        Info(FileInfo(m.source, m.year, m.month, m.date, m.time, m.date + "_" + m.time, dt, name))
  }

  /** The segment after `raw` is the first partition segment of the body, and the groups
      after it are the year, the month and the source. */
  lemma MatchStorageBody(raw: string, year: string, month: string, source: string, date: string, time: string,
                         ext: string)
    requires |year| == 4 && AllDigits(year) && |month| == 2 && AllDigits(month) && source != []
    requires '\n' !in source && '\n' !in raw
    requires forall j :: 0 <= j < |raw| ==> !PartitionAt(StorageBody(raw, year, month, source), j)
    ensures MatchBody(StorageBody(raw, year, month, source), date, time, ext)
            == Some(NameMatch(year, month, source, date, time, ext))
  {
    var body := StorageBody(raw, year, month, source);
    var n := |raw|;
    assert body == raw + ("/" + year + "-" + month + "/" + source);
    assert body[n] == '/' && body[n + 5] == '-' && body[n + 8] == '/';
    assert body[n + 1..n + 5] == year && body[n + 6..n + 8] == month && body[n + 9..] == source;
    assert PartitionAt(body, n);
    assert '\n' !in body;
  }

  /** A name ending in `.parquet` or `.csv` is read with that extension. */
  lemma ExtensionOfName(u: string, ext: string)
    requires ext == "parquet" || ext == "csv"
    ensures MatchName(u + "." + ext) == MatchStem(u, ext)
  {
    var name := u + "." + ext;
    assert name[|name| - 1] == ext[|ext| - 1];
    assert StripFinalNewline(name) == name;
    if ext == "csv" {
      assert name[|name| - 4] == '.';
      assert !EndsWith(name, ".parquet") by {
        if |name| >= 8 {
          assert name[|name| - 8..][4] == name[|name| - 4];
        }
      }
    }
    assert name[|name| - |ext| - 1..] == "." + ext;
    assert ExtensionAtEnd(name) == Some(ext);
    assert name[..|name| - |ext| - 1] == u;
  }

  /** The fixed-width tail `__<date>_<time>` splits off the body. */
  lemma TailOfName(body: string, date: string, time: string, ext: string)
    requires DatePattern(date) && TimePattern(time)
    ensures MatchStem(body + "__" + date + "_" + time, ext) == MatchBody(body, date, time, ext)
  {
    var u := body + "__" + date + "_" + time;
    assert u == body + ("__" + date + "_" + time);
    assert u[|u| - 21..|u| - 19] == "__" && u[|u| - 9] == '_';
    assert u[|u| - 19..|u| - 9] == date && u[|u| - 8..] == time && u[..|u| - 21] == body;
  }

  /**
   * The pattern reads back every field of a name laid out as the downloader lays them
   * out, provided the folder in front contributes no partition segment of its own and
   * neither the folder nor the source holds a line break.
   */
  lemma MatchStorageName(raw: string, year: string, month: string, source: string, date: string, time: string,
                         ext: string)
    requires |year| == 4 && AllDigits(year) && |month| == 2 && AllDigits(month)
    requires DatePattern(date) && TimePattern(time) && (ext == "parquet" || ext == "csv")
    requires source != [] && '\n' !in source && '\n' !in raw
    requires forall j :: 0 <= j < |raw| ==> !PartitionAt(StorageBody(raw, year, month, source), j)
    ensures MatchName(StorageName(raw, year, month, source, date, time, ext))
            == Some(NameMatch(year, month, source, date, time, ext))
  {
    var body := StorageBody(raw, year, month, source);
    var u := body + "__" + date + "_" + time;
    assert StorageName(raw, year, month, source, date, time, ext) == u + "." + ext;
    ExtensionOfName(u, ext);
    TailOfName(body, date, time, ext);
    MatchStorageBody(raw, year, month, source, date, time, ext);
  }

  /**
   * The record of a name laid out as the downloader lays them out: the batch moment and
   * key come from the embedded date and time, and the `<year>-<month>` segment is taken
   * as it is, whatever moment the name carries.
   */
  lemma ExtractStorageName(raw: string, year: string, month: string, source: string, dt: DateTime, ext: string)
    requires |year| == 4 && AllDigits(year) && |month| == 2 && AllDigits(month)
    requires ValidDateTime(dt) && (ext == "parquet" || ext == "csv")
    requires source != [] && '\n' !in source && '\n' !in raw
    requires forall j :: 0 <= j < |raw| ==> !PartitionAt(StorageBody(raw, year, month, source), j)
    ensures var name := StorageName(raw, year, month, source, DateString(dt), TimeString(dt), ext);
            ExtractFileInfo(name)
            == Info(FileInfo(source, year, month, DateString(dt), TimeString(dt), BatchKey(dt), dt, name))
  {
    MatchStorageName(raw, year, month, source, DateString(dt), TimeString(dt), ext);
    FieldsOfFormatted(dt);
  }

  /** A body the pattern accepts is a folder free of partition segments, the first
      partition segment and a source. */
  lemma MatchedBodyIsStorageBody(body: string, date: string, time: string, ext: string)
    requires MatchBody(body, date, time, ext).Some?
    ensures var m, i := MatchBody(body, date, time, ext).value, FirstPartition(body, 0).value;
            && |m.year| == 4 && AllDigits(m.year) && |m.month| == 2 && AllDigits(m.month) && '\n' !in m.source
            && body == StorageBody(body[..i], m.year, m.month, m.source) && '\n' !in body[..i]
            && forall j :: 0 <= j < i ==> !PartitionAt(body, j)
  {
    var i := FirstPartition(body, 0).value;
    assert MatchBody(body, date, time, ext).value
           == NameMatch(body[i + 1..i + 5], body[i + 6..i + 8], body[i + 9..], date, time, ext);
    SplitAtPartition(body, i);
    NoBreakInSlices(body, i);
  }

  /** The slices of a text without a line break have none either. */
  lemma NoBreakInSlices(body: string, i: int)
    requires '\n' !in body && 0 <= i && i + 9 <= |body|
    ensures '\n' !in body[..i] && '\n' !in body[i + 9..]
  {
    assert forall c :: c in body[..i] ==> c in body;
    assert forall c :: c in body[i + 9..] ==> c in body;
  }

  /** Cutting a text at a partition segment gives back the folder, year, month and source. */
  lemma SplitAtPartition(body: string, i: int)
    requires PartitionAt(body, i)
    ensures body == StorageBody(body[..i], body[i + 1..i + 5], body[i + 6..i + 8], body[i + 9..])
  {
    calc {
      body;
      body[..i + 1] + body[i + 1..];
      body[..i] + "/" + body[i + 1..];
      { assert body[i + 1..] == body[i + 1..i + 5] + body[i + 5..]; }
      body[..i] + "/" + body[i + 1..i + 5] + body[i + 5..];
      { assert body[i + 5..] == "-" + body[i + 6..]; }
      body[..i] + "/" + body[i + 1..i + 5] + "-" + body[i + 6..];
      { assert body[i + 6..] == body[i + 6..i + 8] + "/" + body[i + 9..]; }
      body[..i] + "/" + body[i + 1..i + 5] + "-" + body[i + 6..i + 8] + "/" + body[i + 9..];
    }
  }

  /** A text the fixed-width tail accepts is a body followed by `__<date>_<time>`. */
  lemma MatchedStemIsTail(u: string, ext: string)
    requires MatchStem(u, ext).Some?
    ensures var m := MatchStem(u, ext).value;
            && u == u[..|u| - 21] + "__" + m.date + "_" + m.time
            && MatchBody(u[..|u| - 21], m.date, m.time, ext) == Some(m)
  {
    var m := MatchStem(u, ext).value;
    assert u == u[..|u| - 21] + u[|u| - 21..|u| - 19] + u[|u| - 19..|u| - 9] + [u[|u| - 9]] + u[|u| - 8..];
  }

  /** A name the pattern accepts ends in `.<ext>`, up to one final line break. */
  lemma MatchedNameHasExtension(name: string)
    requires MatchName(name).Some?
    ensures var m, t := MatchName(name).value, StripFinalNewline(name);
            && ExtensionAtEnd(t) == Some(m.ext)
            && |t| > |m.ext| && t == t[..|t| - |m.ext| - 1] + "." + m.ext
            && MatchStem(t[..|t| - |m.ext| - 1], m.ext) == Some(m)
  {
    var t := StripFinalNewline(name);
    var ext := ExtensionAtEnd(t).value;
    assert t == t[..|t| - |ext| - 1] + t[|t| - |ext| - 1..];
  }

  /** The folder in front of the first partition segment of a name the pattern accepts. */
  function MatchedFolder(name: string): string
    requires MatchName(name).Some?
  {
    var t := StripFinalNewline(name);
    var ext := ExtensionAtEnd(t).value;
    var u := t[..|t| - |ext| - 1];
    var body := u[..|u| - 21];
    body[..FirstPartition(body, 0).value]
  }

  /**
   * The converse of `MatchStorageName`: every name the pattern accepts is, up to one
   * final line break, a name laid out as the downloader lays them out, with a folder
   * in front that holds no partition segment of its own, and the groups are its fields.
   */
  lemma MatchedNameIsStorageName(name: string)
    requires MatchName(name).Some?
    ensures var m, raw := MatchName(name).value, MatchedFolder(name);
            && |m.year| == 4 && AllDigits(m.year) && |m.month| == 2 && AllDigits(m.month) && '\n' !in m.source
            && StripFinalNewline(name) == StorageName(raw, m.year, m.month, m.source, m.date, m.time, m.ext)
            && '\n' !in raw
            && forall j :: 0 <= j < |raw| ==> !PartitionAt(StorageBody(raw, m.year, m.month, m.source), j)
  {
    var m, t := MatchName(name).value, StripFinalNewline(name);
    MatchedNameHasExtension(name);
    var u := t[..|t| - |m.ext| - 1];
    MatchedStemIsTail(u, m.ext);
    var body := u[..|u| - 21];
    MatchedBodyIsStorageBody(body, m.date, m.time, m.ext);
    assert MatchedFolder(name) == body[..FirstPartition(body, 0).value];
  }

  /** The partition segment is not compared with the embedded date: a file of
      2024-12-31 stored under `2025-01` is read as a record of 2024-12-31. */
  lemma PartitionNotCompared()
    ensures var dt := DateTime(2024, 12, 31, 23, 59, 59);
            var r := ExtractFileInfo(StorageName("raw_data", "2025", "01", "src", DateString(dt), TimeString(dt), "csv"));
            && r.Info? && r.info.year == "2025" && r.info.month == "01" && r.info.datetime == dt
  {
    var raw := "raw_data";
    assert AllDigits("2025") && AllDigits("01");
    forall j | 0 <= j < |raw| ensures !PartitionAt(StorageBody(raw, "2025", "01", "src"), j) {
      assert StorageBody(raw, "2025", "01", "src")[j] == raw[j];
    }
    ExtractStorageName(raw, "2025", "01", "src", DateTime(2024, 12, 31, 23, 59, 59), "csv");
  }

  // ---------------------------------------------------------------------------
  // lister_fichiers_par_timestamp
  // ---------------------------------------------------------------------------

  /** The dictionary of batches: `order` is the insertion order of its keys. */
  datatype Listing = Listed(order: seq<string>, groups: map<string, seq<FileInfo>>) | ListingRaised(blob: string)

  /** `bucket.list_blobs(prefix=...)` on the snapshot: the names with that prefix, in order. */
  function ListBlobs(store: seq<string>, prefix: string): (r: seq<string>)
    ensures forall n :: n in r <==> n in store && StartsWith(n, prefix)
  {
    if store == [] then []
    else
      var rest := ListBlobs(store[..|store| - 1], prefix);
      assert store == store[..|store| - 1] + [store[|store| - 1]];
      if StartsWith(store[|store| - 1], prefix) then rest + [store[|store| - 1]] else rest
  }

  function PrefixFor(raw: string, yearMonth: Option<string>): string
  {
    if Given(yearMonth) then raw + "/" + yearMonth.value + "/" else raw + "/"
  }

  /** The timestamp filter lets a record through. */
  predicate Keeps(x: FileInfo, filter: Option<string>)
  {
    !Given(filter) || x.timestamp == filter.value
  }

  /** What the lister makes of one object name: skipped (a directory marker or a name the
      pattern rejects), unreadable (the `ValueError` of `strptime`, which the lister does
      not catch), or a record. */
  datatype Entry = Skipped | Unreadable(name: string) | Record(info: FileInfo)

  function Classify(name: string): (r: Entry)
    ensures r.Skipped? <==> EndsWith(name, "/") || ExtractFileInfo(name).NoMatch?
    ensures r.Unreadable? <==> !EndsWith(name, "/") && ExtractFileInfo(name).BadDate?
    ensures r.Unreadable? ==> r.name == name
    ensures r.Record? ==> !EndsWith(name, "/") && ExtractFileInfo(name) == Info(r.info)
    ensures r.Record? ==> ValidDateTime(r.info.datetime) && r.info.timestamp == BatchKey(r.info.datetime)
  {
    if EndsWith(name, "/") then Skipped
    else match ExtractFileInfo(name)
      case NoMatch => Skipped
      case BadDate => Unreadable(name)
      case Info(x) => Record(x)
  }

  /** The classification of each name, in listing order. */
  function Entries(names: seq<string>): (r: seq<Entry>)
    ensures |r| == |names|
  {
    if names == [] then [] else Entries(names[..|names| - 1]) + [Classify(names[|names| - 1])]
  }

  lemma {:induction false} EntryAt(names: seq<string>, i: nat)
    requires i < |names|
    ensures Entries(names)[i] == Classify(names[i])
  {
    if i < |names| - 1 {
      EntryAt(names[..|names| - 1], i);
    }
  }

  /** The records the lister keeps, in listing order. */
  function Kept(entries: seq<Entry>, filter: Option<string>): (r: seq<FileInfo>)
    ensures forall x :: x in r <==> Record(x) in entries && Keeps(x, filter)
  {
    if entries == [] then []
    else
      var init, e := entries[..|entries| - 1], entries[|entries| - 1];
      assert entries == init + [e];
      if e.Record? && Keeps(e.info, filter) then Kept(init, filter) + [e.info] else Kept(init, filter)
  }

  /** Every kept record comes from a listed name that is not a directory marker, and
      carries a calendar moment whose key is its timestamp. */
  lemma KeptRecords(names: seq<string>, filter: Option<string>, x: FileInfo)
    requires x in Kept(Entries(names), filter)
    ensures ValidDateTime(x.datetime) && x.timestamp == BatchKey(x.datetime)
    ensures exists i :: 0 <= i < |names| && !EndsWith(names[i], "/") && ExtractFileInfo(names[i]) == Info(x)
  {
    var es := Entries(names);
    var i :| 0 <= i < |es| && es[i] == Record(x);
    EntryAt(names, i);
  }

  /** The records of `xs` whose key is `k`, in order. */
  function WithKey(xs: seq<FileInfo>, k: string): (r: seq<FileInfo>)
    ensures forall x :: x in r <==> x in xs && x.timestamp == k
  {
    if xs == [] then []
    else
      var rest := WithKey(xs[..|xs| - 1], k);
      assert xs == xs[..|xs| - 1] + [xs[|xs| - 1]];
      if xs[|xs| - 1].timestamp == k then rest + [xs[|xs| - 1]] else rest
  }

  /** One iteration of the lister's loop over blobs. */
  function GroupStep(l: Listing, e: Entry, filter: Option<string>): Listing
  {
    if l.ListingRaised? then l
    else match e
      case Skipped => l
      case Unreadable(name) => ListingRaised(name)
      case Record(x) =>
        if !Keeps(x, filter) then l
        else if x.timestamp in l.groups then Listed(l.order, l.groups[x.timestamp := l.groups[x.timestamp] + [x]])
        else Listed(l.order + [x.timestamp], l.groups[x.timestamp := [x]])
  }

  /** The lister's result on a sequence of classified names. */
  function Group(entries: seq<Entry>, filter: Option<string>): Listing
  {
    if entries == [] then Listed([], map[])
    else GroupStep(Group(entries[..|entries| - 1], filter), entries[|entries| - 1], filter)
  }

  /** `lister_fichiers_par_timestamp(year_month, timestamp)` on the snapshot. */
  function FilesByTimestamp(store: seq<string>, raw: string, yearMonth: Option<string>, timestamp: Option<string>)
    : Listing
  {
    Group(Entries(ListBlobs(store, PrefixFor(raw, yearMonth))), timestamp)
  }

  /** Once a prefix of the listing raises, so does the whole listing. */
  lemma {:induction false} RaisedPersists(entries: seq<Entry>, n: nat, filter: Option<string>)
    requires n <= |entries| && Group(entries[..n], filter).ListingRaised?
    ensures Group(entries, filter) == Group(entries[..n], filter)
  {
    if n < |entries| {
      var init := entries[..|entries| - 1];
      assert init[..n] == entries[..n];
      RaisedPersists(init, n, filter);
    } else {
      assert entries[..n] == entries;
    }
  }

  /** The lister raises exactly when some listed name is unreadable, and then it raises on one of them. */
  lemma {:induction false} GroupRaisesIff(entries: seq<Entry>, filter: Option<string>)
    ensures Group(entries, filter).ListingRaised? <==> exists e :: e in entries && e.Unreadable?
    ensures Group(entries, filter).ListingRaised? ==> Unreadable(Group(entries, filter).blob) in entries
  {
    if entries != [] {
      var init := entries[..|entries| - 1];
      GroupRaisesIff(init, filter);
      assert entries == init + [entries[|entries| - 1]];
    }
  }

  lemma WithKeyAppend(xs: seq<FileInfo>, x: FileInfo, k: string)
    ensures WithKey(xs + [x], k) == WithKey(xs, k) + (if x.timestamp == k then [x] else [])
  {
    assert (xs + [x])[..|xs + [x]| - 1] == xs;
  }

  lemma {:induction false} WithKeyNone(xs: seq<FileInfo>, k: string)
    requires forall x :: x in xs ==> x.timestamp != k
    ensures WithKey(xs, k) == []
  {
    if WithKey(xs, k) != [] {
      assert WithKey(xs, k)[0] in WithKey(xs, k);
    }
  }

  /**
   * `l` is the partition by key of the records `xs`: its keys (in first-seen order,
   * without repetition) are exactly the keys of the records, and each key maps to the
   * non-empty list of its records in their order.
   */
  ghost predicate Partitions(l: Listing, xs: seq<FileInfo>)
  {
    && l.Listed?
    && (forall k :: k in l.groups <==> k in l.order)
    && (forall i, j :: 0 <= i < j < |l.order| ==> l.order[i] != l.order[j])
    && (forall k :: k in l.groups ==> l.groups[k] == WithKey(xs, k) && l.groups[k] != [])
    && (forall x :: x in xs ==> x.timestamp in l.groups)
  }

  /** A record with a new key opens a list of its own at the end of the key order. */
  lemma PartitionNewKey(order: seq<string>, groups: map<string, seq<FileInfo>>, xs: seq<FileInfo>, x: FileInfo)
    requires Partitions(Listed(order, groups), xs) && x.timestamp !in groups
    ensures Partitions(Listed(order + [x.timestamp], groups[x.timestamp := [x]]), xs + [x])
  {
    var ts := x.timestamp;
    var order', groups' := order + [ts], groups[ts := [x]];
    assert forall k :: k in order' <==> k in order || k == ts;
    AppendDistinct(order, ts);
    NewKeyGroups(groups, xs, x);
    assert forall y :: y in xs + [x] ==> y in xs || y == x;
  }

  /** The lists after a record with a new key are still the records of each key. */
  lemma NewKeyGroups(groups: map<string, seq<FileInfo>>, xs: seq<FileInfo>, x: FileInfo)
    requires forall k :: k in groups ==> groups[k] == WithKey(xs, k) && groups[k] != []
    requires forall y :: y in xs ==> y.timestamp in groups
    requires x.timestamp !in groups
    ensures forall k :: k in groups[x.timestamp := [x]] ==>
              groups[x.timestamp := [x]][k] == WithKey(xs + [x], k) && groups[x.timestamp := [x]][k] != []
  {
    var ts := x.timestamp;
    var groups' := groups[ts := [x]];
    forall k | k in groups' ensures groups'[k] == WithKey(xs + [x], k) && groups'[k] != [] {
      WithKeyAppend(xs, x, k);
      if k == ts {
        WithKeyNone(xs, ts);
      }
    }
  }

  /** Appending a new key keeps the keys distinct. */
  lemma AppendDistinct(order: seq<string>, ts: string)
    requires forall i, j :: 0 <= i < j < |order| ==> order[i] != order[j]
    requires ts !in order
    ensures forall i, j :: 0 <= i < j < |order + [ts]| ==> (order + [ts])[i] != (order + [ts])[j]
  {
    var order' := order + [ts];
    forall i, j | 0 <= i < j < |order'| ensures order'[i] != order'[j] {
      if j == |order| {
        assert order'[i] == order[i];
      } else {
        assert order'[i] == order[i] && order'[j] == order[j];
      }
    }
  }

  /** A record with a known key is appended to its key's list. */
  lemma PartitionKnownKey(order: seq<string>, groups: map<string, seq<FileInfo>>, xs: seq<FileInfo>, x: FileInfo)
    requires Partitions(Listed(order, groups), xs) && x.timestamp in groups
    ensures Partitions(Listed(order, groups[x.timestamp := groups[x.timestamp] + [x]]), xs + [x])
  {
    var ts := x.timestamp;
    var groups' := groups[ts := groups[ts] + [x]];
    forall k | k in groups' ensures groups'[k] == WithKey(xs + [x], k) && groups'[k] != [] {
      WithKeyAppend(xs, x, k);
    }
  }

  /** One step of the lister keeps the partition of the records kept so far. */
  lemma PartitionStep(l: Listing, xs: seq<FileInfo>, e: Entry, filter: Option<string>)
    requires Partitions(l, xs) && !e.Unreadable?
    ensures Partitions(GroupStep(l, e, filter), if e.Record? && Keeps(e.info, filter) then xs + [e.info] else xs)
  {
    if e.Record? && Keeps(e.info, filter) {
      if e.info.timestamp in l.groups {
        PartitionKnownKey(l.order, l.groups, xs, e.info);
      } else {
        PartitionNewKey(l.order, l.groups, xs, e.info);
      }
    }
  }

  /** The listing, when it does not raise, is the partition by key of the kept records. */
  lemma {:induction false} GroupPartitionsKept(entries: seq<Entry>, filter: Option<string>)
    requires Group(entries, filter).Listed?
    ensures Partitions(Group(entries, filter), Kept(entries, filter))
  {
    if entries != [] {
      var init, e := entries[..|entries| - 1], entries[|entries| - 1];
      assert Group(init, filter).Listed?;
      GroupPartitionsKept(init, filter);
      assert entries == init + [e];
      PartitionStep(Group(init, filter), Kept(init, filter), e, filter);
    }
  }

  /** The lister's loop: blobs that are directories or do not match are skipped, the rest
      are appended to their batch, and a bad date propagates out of the loop. */
  method ListFilesByTimestamp(store: seq<string>, raw: string, yearMonth: Option<string>, timestamp: Option<string>)
    returns (l: Listing)
    ensures l == FilesByTimestamp(store, raw, yearMonth, timestamp)
  {
    var blobs := ListBlobs(store, PrefixFor(raw, yearMonth));
    var entries := Entries(blobs);
    var order: seq<string> := [];
    var groups: map<string, seq<FileInfo>> := map[];
    var i := 0;
    while i < |entries|
      invariant 0 <= i <= |entries|
      invariant Group(entries[..i], timestamp) == Listed(order, groups)
    {
      assert entries[..i + 1][..i] == entries[..i];
      assert Group(entries[..i + 1], timestamp) == GroupStep(Listed(order, groups), entries[i], timestamp);
      match entries[i] {
        case Skipped =>
        case Unreadable(name) =>
          RaisedPersists(entries, i + 1, timestamp);
          return ListingRaised(name);
        case Record(info) =>
          if Keeps(info, timestamp) {
            // a new key opens its list (and takes its place in the key order); the record is appended
            var ts := info.timestamp;
            if ts !in groups {
              order := order + [ts];
              groups := groups[ts := [info]];
            } else {
              groups := groups[ts := groups[ts] + [info]];
            }
          }
      }
      i := i + 1;
    }
    assert entries[..i] == entries;
    l := Listed(order, groups);
  }

  // ---------------------------------------------------------------------------
  // Batch selection in charger_batch_vers_bigquery
  // ---------------------------------------------------------------------------

  datatype Selection = Chosen(key: string) | NoBatch | SelectionRaised

  /** `[ts for ts in keys if ts.startswith(date)]` */
  function StartingWith(keys: seq<string>, date: string): (r: seq<string>)
    ensures forall k :: k in r <==> k in keys && StartsWith(k, date)
  {
    if keys == [] then []
    else
      var rest := StartingWith(keys[..|keys| - 1], date);
      assert keys == keys[..|keys| - 1] + [keys[|keys| - 1]];
      if StartsWith(keys[|keys| - 1], date) then rest + [keys[|keys| - 1]] else rest
  }

  /**
   * Which batch `charger_batch_vers_bigquery(timestamp, date)` loads: a given timestamp
   * as it is; else, with a date, the greatest key starting with it in the listing of
   * partition `date[:7]`; else the greatest key of the whole listing.
   */
  function SelectBatch(store: seq<string>, raw: string, timestamp: Option<string>, date: Option<string>)
    : (r: Selection)
    ensures Given(timestamp) ==> r == Chosen(timestamp.value)
    ensures !Given(timestamp) && !Given(date) ==>
              var l := FilesByTimestamp(store, raw, None, None);
              && (r.SelectionRaised? <==> l.ListingRaised?)
              && (r.NoBatch? <==> l.Listed? && l.order == [])
              && (r.Chosen? ==> r.key in l.order && forall k :: k in l.order ==> LexLe(k, r.key))
    ensures !Given(timestamp) && Given(date) ==>
              var l := FilesByTimestamp(store, raw, Some(Take(date.value, 7)), None);
              && (r.SelectionRaised? <==> l.ListingRaised?)
              && (r.NoBatch? <==> l.Listed? && forall k :: k in l.order ==> !StartsWith(k, date.value))
              && (r.Chosen? ==> r.key in l.order && StartsWith(r.key, date.value)
                                && forall k :: k in l.order && StartsWith(k, date.value) ==> LexLe(k, r.key))
  {
    if !Given(timestamp) && !Given(date) then
      match FilesByTimestamp(store, raw, None, None)
      case ListingRaised(_) => SelectionRaised
      case Listed(order, _) => if order == [] then NoBatch else Chosen(MaxOf(order))
    else if Given(date) && !Given(timestamp) then
      match FilesByTimestamp(store, raw, Some(Take(date.value, 7)), None)
      case ListingRaised(_) => SelectionRaised
      case Listed(order, _) =>
        var candidates := StartingWith(order, date.value);
        if candidates == [] then
          assert forall k :: k in order ==> !StartsWith(k, date.value);
          NoBatch
        else Chosen(MaxOf(candidates))
    else Chosen(timestamp.value)
  }

  /** Without hints the loader picks the chronologically latest batch of the listing. */
  lemma LatestBatchIsMostRecent(store: seq<string>, raw: string)
    requires SelectBatch(store, raw, None, None).Chosen?
    ensures var names := ListBlobs(store, raw + "/");
            var k := SelectBatch(store, raw, None, None).key;
            && (exists y :: y in Kept(Entries(names), None) && y.timestamp == k)
            && (forall x, y :: x in Kept(Entries(names), None) && y in Kept(Entries(names), None) && y.timestamp == k
                  ==> NotAfter(x.datetime, y.datetime))
  {
    var names := ListBlobs(store, raw + "/");
    var l := FilesByTimestamp(store, raw, None, None);
    var k := SelectBatch(store, raw, None, None).key;
    GroupPartitionsKept(Entries(names), None);
    assert k in l.groups;
    assert l.groups[k][0] in WithKey(Kept(Entries(names), None), k);
    forall x, y | x in Kept(Entries(names), None) && y in Kept(Entries(names), None) && y.timestamp == k
      ensures NotAfter(x.datetime, y.datetime)
    {
      KeptRecords(names, None, x);
      KeptRecords(names, None, y);
      assert LexLe(x.timestamp, k);
      KeyOrderIsChronological(x.datetime, y.datetime);
    }
  }

  /** With only a date the loader picks the chronologically latest batch of that day. */
  lemma LatestOfDayIsMostRecent(store: seq<string>, raw: string, date: string)
    requires date != ""
    requires SelectBatch(store, raw, None, Some(date)).Chosen?
    ensures var names := ListBlobs(store, raw + "/" + Take(date, 7) + "/");
            var k := SelectBatch(store, raw, None, Some(date)).key;
            && (exists y :: y in Kept(Entries(names), None) && y.timestamp == k)
            && (forall x, y :: (x in Kept(Entries(names), None) && y in Kept(Entries(names), None) && y.timestamp == k
                  && StartsWith(x.timestamp, date)) ==> NotAfter(x.datetime, y.datetime))
  {
    var names := ListBlobs(store, raw + "/" + Take(date, 7) + "/");
    var l := FilesByTimestamp(store, raw, Some(Take(date, 7)), None);
    assert Take(date, 7) != "";
    var k := SelectBatch(store, raw, None, Some(date)).key;
    GroupPartitionsKept(Entries(names), None);
    assert k in l.groups;
    assert l.groups[k][0] in WithKey(Kept(Entries(names), None), k);
    forall x, y | x in Kept(Entries(names), None) && y in Kept(Entries(names), None) && y.timestamp == k && StartsWith(x.timestamp, date)
      ensures NotAfter(x.datetime, y.datetime)
    {
      KeptRecords(names, None, x);
      KeptRecords(names, None, y);
      assert LexLe(x.timestamp, k);
      KeyOrderIsChronological(x.datetime, y.datetime);
    }
  }

  // ---------------------------------------------------------------------------
  // charger_batch_vers_bigquery
  // ---------------------------------------------------------------------------

  /** One call of `charger_fichier_vers_bigquery(file, stamp)` into `table`. */
  datatype LoadCall = LoadCall(file: FileInfo, table: string, stamp: DateTime)

  /** `lister_fichiers_par_timestamp(timestamp[:7], timestamp).get(timestamp, [])` */
  function BatchFiles(store: seq<string>, raw: string, key: string): (r: Outcome<seq<FileInfo>>)
    ensures r.Returned? ==> forall x :: x in r.value ==> x.timestamp == key
  {
    match FilesByTimestamp(store, raw, Some(Take(key, 7)), Some(key))
    case ListingRaised(_) => Raised
    case Listed(_, groups) =>
      if key in groups then
        GroupPartitionsKept(Entries(ListBlobs(store, PrefixFor(raw, Some(Take(key, 7))))), Some(key));
        Returned(groups[key])
      else Returned([])
  }

  /** A stored record of a batch, under the month partition of its key, is among the files
      loaded for that key. */
  lemma StoredRecordInBatch(store: seq<string>, raw: string, key: string, name: string, info: FileInfo)
    requires name in store && StartsWith(name, PrefixFor(raw, Some(Take(key, 7))))
    requires !EndsWith(name, "/") && ExtractFileInfo(name) == Info(info) && info.timestamp == key
    requires BatchFiles(store, raw, key).Returned?
    ensures info in BatchFiles(store, raw, key).value
  {
    assert Classify(name) == Record(info);
    ClassifiedInBatch(store, raw, key, name, info);
  }

  /** A listed name classified as a record of the key is among the key's files. */
  lemma ClassifiedInBatch(store: seq<string>, raw: string, key: string, name: string, info: FileInfo)
    requires name in store && StartsWith(name, PrefixFor(raw, Some(Take(key, 7))))
    requires Classify(name) == Record(info) && info.timestamp == key
    requires BatchFiles(store, raw, key).Returned?
    ensures info in BatchFiles(store, raw, key).value
  {
    var names := ListBlobs(store, PrefixFor(raw, Some(Take(key, 7))));
    var i :| 0 <= i < |names| && names[i] == name;
    EntryAt(names, i);
    assert Record(info) in Entries(names);
    KeptInBatch(store, raw, key, info);
  }

  /** A record the lister keeps for the key is among the key's files. */
  lemma KeptInBatch(store: seq<string>, raw: string, key: string, info: FileInfo)
    requires info in Kept(Entries(ListBlobs(store, PrefixFor(raw, Some(Take(key, 7))))), Some(key))
    requires info.timestamp == key && BatchFiles(store, raw, key).Returned?
    ensures info in BatchFiles(store, raw, key).value
  {
    var entries := Entries(ListBlobs(store, PrefixFor(raw, Some(Take(key, 7)))));
    var kept := Kept(entries, Some(key));
    GroupPartitionsKept(entries, Some(key));
    var l := Group(entries, Some(key));
    assert key in l.groups && l.groups[key] == WithKey(kept, key);
  }

  /** All files of one batch carry the same moment, so stamping every file with the first
      file's moment stamps each with its own. */
  lemma BatchFilesShareMoment(store: seq<string>, raw: string, key: string)
    requires BatchFiles(store, raw, key).Returned? && BatchFiles(store, raw, key).value != []
    ensures var files := BatchFiles(store, raw, key).value;
            forall x :: x in files ==> x.datetime == files[0].datetime
  {
    var names := ListBlobs(store, PrefixFor(raw, Some(Take(key, 7))));
    var files := BatchFiles(store, raw, key).value;
    BatchFilesKept(store, raw, key);
    KeptRecords(names, Some(key), files[0]);
    forall x | x in files ensures x.datetime == files[0].datetime {
      KeptRecords(names, Some(key), x);
      BatchKeyInjective(x.datetime, files[0].datetime);
    }
  }

  /** Every file of a batch is a record the lister keeps for its key. */
  lemma BatchFilesKept(store: seq<string>, raw: string, key: string)
    requires BatchFiles(store, raw, key).Returned?
    ensures forall x :: x in BatchFiles(store, raw, key).value ==>
                          x in Kept(Entries(ListBlobs(store, PrefixFor(raw, Some(Take(key, 7))))), Some(key))
  {
    GroupPartitionsKept(Entries(ListBlobs(store, PrefixFor(raw, Some(Take(key, 7))))), Some(key));
  }

  /** The raw table name of a source: filling a pattern does not depend on which source it is given. */
  lemma RawTableNameUniform(s1: string, s2: string, rawPattern: seq<Piece>, transformedPattern: seq<Piece>)
    ensures TableName(s1, "raw", rawPattern, transformedPattern).Returned?
        <==> TableName(s2, "raw", rawPattern, transformedPattern).Returned?
  {
  }

  /**
   * The loop of `charger_batch_vers_bigquery` over the files of the chosen batch: every
   * file is loaded into its source's raw table with the first file's moment as the stamp,
   * a failed load does not stop the loop, and the result is `all` of the outcomes.  A
   * table-name pattern that does not fill raises.  `loadFile` is the outcome of the load
   * job and stamp update of one file; `calls` records the loads attempted, in order.
   */
  method LoadFiles(files: seq<FileInfo>, rawPattern: seq<Piece>, transformedPattern: seq<Piece>,
                   loadFile: LoadCall -> bool)
    returns (r: Outcome<bool>, calls: seq<LoadCall>)
    requires files != []
    ensures !Bound(rawPattern, map["source" := files[0].source]) ==> r.Raised? && calls == []
    ensures Bound(rawPattern, map["source" := files[0].source]) ==>
              && |calls| == |files|
              && (forall i :: 0 <= i < |calls| ==>
                    && calls[i].file == files[i]
                    && calls[i].stamp == files[0].datetime
                    && TableName(files[i].source, "raw", rawPattern, transformedPattern) == Returned(calls[i].table))
              && r == Returned(forall i :: 0 <= i < |calls| ==> loadFile(calls[i]))
  {
    calls := [];
    var stamp := files[0].datetime;
    var allOk := true;
    var i := 0;
    while i < |files|
      invariant 0 <= i <= |files|
      invariant |calls| == i
      invariant forall j :: 0 <= j < i ==>
                  && calls[j].file == files[j] && calls[j].stamp == stamp
                  && TableName(files[j].source, "raw", rawPattern, transformedPattern) == Returned(calls[j].table)
      invariant allOk == forall j :: 0 <= j < i ==> loadFile(calls[j])
      invariant i > 0 ==> Bound(rawPattern, map["source" := files[0].source])
    {
      var table := TableName(files[i].source, "raw", rawPattern, transformedPattern);
      if table.Raised? {
        RawTableNameUniform(files[0].source, files[i].source, rawPattern, transformedPattern);
        return Raised, [];
      }
      var call := LoadCall(files[i], table.value, stamp);
      var ok := loadFile(call);
      calls := calls + [call];
      allOk := allOk && ok;
      i := i + 1;
    }
    r := Returned(allOk);
  }

  /**
   * `charger_batch_vers_bigquery(timestamp, date)`: select a batch, list its files, and
   * load them; no batch, or a batch without files, gives `False` and loads nothing.
   */
  method LoadBatch(store: seq<string>, raw: string, timestamp: Option<string>, date: Option<string>,
                   rawPattern: seq<Piece>, transformedPattern: seq<Piece>, loadFile: LoadCall -> bool)
    returns (r: Outcome<bool>, calls: seq<LoadCall>)
    ensures var sel := SelectBatch(store, raw, timestamp, date);
            && (sel.SelectionRaised? ==> r.Raised? && calls == [])
            && (sel.NoBatch? ==> r == Returned(false) && calls == [])
    ensures var sel := SelectBatch(store, raw, timestamp, date);
            sel.Chosen? ==>
              var files := BatchFiles(store, raw, sel.key);
              && (files.Raised? ==> r.Raised? && calls == [])
              && (files == Returned([]) ==> r == Returned(false) && calls == [])
              && (files.Returned? && files.value != [] ==>
                    if !Bound(rawPattern, map["source" := files.value[0].source]) then r.Raised? && calls == []
                    else
                      && |calls| == |files.value|
                      && (forall i :: 0 <= i < |calls| ==>
                            && calls[i].file == files.value[i]
                            && calls[i].stamp == files.value[0].datetime
                            && TableName(files.value[i].source, "raw", rawPattern, transformedPattern)
                               == Returned(calls[i].table))
                      && r == Returned(forall i :: 0 <= i < |calls| ==> loadFile(calls[i])))
  {
    calls := [];
    var sel := SelectBatch(store, raw, timestamp, date);
    if sel.SelectionRaised? {
      return Raised, calls;
    }
    if sel.NoBatch? {
      return Returned(false), calls;
    }
    var key := sel.key;
    var listing := ListFilesByTimestamp(store, raw, Some(Take(key, 7)), Some(key));
    if listing.ListingRaised? {
      return Raised, calls;
    }
    var files := if key in listing.groups then listing.groups[key] else [];
    if files == [] {
      return Returned(false), calls;
    }
    r, calls := LoadFiles(files, rawPattern, transformedPattern, loadFile);
  }

  // ---------------------------------------------------------------------------
  // The stamp update in charger_fichier_vers_bigquery and creer_table_si_necessaire
  // ---------------------------------------------------------------------------

  /** A warehouse row with its two stamp columns (`NULL` is `None`). */
  datatype Row = Row(cells: seq<string>, extractionTimestamp: Option<DateTime>, extractionDate: Option<Date>)

  /** `UPDATE ... SET ts = stamp, date = DATE(stamp) WHERE ts IS NULL` on one row. */
  function Stamped(row: Row, stamp: DateTime): (r: Row)
    ensures r.cells == row.cells && r.extractionTimestamp.Some?
    ensures row.extractionTimestamp.Some? ==> r == row
    ensures row.extractionTimestamp.None? ==>
              r.extractionTimestamp == Some(stamp) && r.extractionDate == Some(DateOf(stamp))
  {
    if row.extractionTimestamp.None? then
      row.(extractionTimestamp := Some(stamp), extractionDate := Some(DateOf(stamp)))
    else row
  }

  function StampAll(rows: seq<Row>, stamp: DateTime): (r: seq<Row>)
    ensures |r| == |rows|
    ensures forall i :: 0 <= i < |rows| ==> r[i] == Stamped(rows[i], stamp)
  {
    seq(|rows|, i requires 0 <= i < |rows| => Stamped(rows[i], stamp))
  }

  /** A second run of the update, whatever its stamp, changes nothing. */
  lemma StampIdempotent(rows: seq<Row>, first: DateTime, second: DateTime)
    ensures StampAll(StampAll(rows, first), second) == StampAll(rows, first)
  {
  }

  /** After a load appends unstamped rows, the update gives every one of them the batch's
      stamp and leaves the rows that already had a stamp as they were. */
  lemma AppendedRowsCarryTheBatchStamp(before: seq<Row>, loaded: seq<Row>, stamp: DateTime)
    requires forall i :: 0 <= i < |loaded| ==> loaded[i].extractionTimestamp.None?
    ensures var after := StampAll(before + loaded, stamp);
            && (forall i :: 0 <= i < |loaded| ==>
                  after[|before| + i].cells == loaded[i].cells
                  && after[|before| + i].extractionTimestamp == Some(stamp)
                  && after[|before| + i].extractionDate == Some(DateOf(stamp)))
            && (forall i :: 0 <= i < |before| && before[i].extractionTimestamp.Some? ==> after[i] == before[i])
  {
    var all := before + loaded;
    assert forall i :: 0 <= i < |loaded| ==> all[|before| + i] == loaded[i];
    assert forall i :: 0 <= i < |before| ==> all[i] == before[i];
  }

  /** The stamp update, in place on the table's rows. */
  method StampNullRows(rows: array<Row>, stamp: DateTime)
    modifies rows
    ensures rows[..] == StampAll(old(rows[..]), stamp)
  {
    var i := 0;
    while i < rows.Length
      invariant 0 <= i <= rows.Length
      invariant forall j :: 0 <= j < i ==> rows[j] == Stamped(old(rows[j]), stamp)
      invariant forall j :: i <= j < rows.Length ==> rows[j] == old(rows[j])
    {
      if rows[i].extractionTimestamp.None? {
        rows[i] := rows[i].(extractionTimestamp := Some(stamp), extractionDate := Some(DateOf(stamp)));
      }
      i := i + 1;
    }
  }

  /** One `ADD COLUMN <column> <sqlType>` clause of an `ALTER TABLE`. */
  datatype Alteration = AddColumn(column: string, sqlType: string)

  /**
   * `creer_table_si_necessaire`: the clauses it runs.  A table that cannot be read
   * (`schema == None`) will be created by the first load, so nothing is altered.
   */
  method StampColumnsToAdd(schema: Option<seq<string>>, timestampColumn: string, dateColumn: string)
    returns (alters: seq<Alteration>)
    ensures schema.None? ==> alters == []
    ensures schema.Some? ==>
              && (forall a :: a in alters ==> a.column !in schema.value)
              && (exists a :: a in alters && a.column == timestampColumn) == (timestampColumn !in schema.value)
              && (exists a :: a in alters && a.column == dateColumn) == (dateColumn !in schema.value)
              && |alters| == (if timestampColumn in schema.value then 0 else 1) + (if dateColumn in schema.value then 0 else 1)
              && (timestampColumn !in schema.value ==> alters[0] == AddColumn(timestampColumn, "TIMESTAMP"))
              && (dateColumn !in schema.value ==> alters[|alters| - 1] == AddColumn(dateColumn, "DATE"))
  {
    alters := [];
    if schema.None? {
      return;
    }
    var fields := schema.value;
    if timestampColumn !in fields {
      alters := alters + [AddColumn(timestampColumn, "TIMESTAMP")];
    }
    if dateColumn !in fields {
      alters := alters + [AddColumn(dateColumn, "DATE")];
    }
  }
}
