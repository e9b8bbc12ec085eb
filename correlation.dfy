/**
 * How the stages agree on a batch's identity: the downloader writes the run's moment into
 * every object name, and the loader reads it back from there.  Nothing else carries the
 * identity from one stage to the next.
 */
module Correlation {
  import opened Common
  import opened Keys
  import opened Template
  import opened Download
  import opened Load

  /** The folder and the source name leave the pattern nothing to misread: the source is
      not empty, neither holds a line break, and the folder contributes no `/<4 digits>-<2
      digits>/` segment in front of the one the downloader writes. */
  predicate Readable(raw: string, source: string, dt: DateTime)
    requires ValidDateTime(dt)
  {
    && source != [] && '\n' !in source && '\n' !in raw
    && forall j :: 0 <= j < |raw| ==> !PartitionAt(StorageBody(raw, Pad4(dt.year), Pad2(dt.month), source), j)
  }

  /** A folder without a slash, like the configured `raw_data`, never contributes a partition segment. */
  lemma FolderWithoutSlash(raw: string, source: string, dt: DateTime)
    requires ValidDateTime(dt)
    requires '/' !in raw && '\n' !in raw && source != [] && '\n' !in source
    ensures Readable(raw, source, dt)
  {
    forall j | 0 <= j < |raw| ensures !PartitionAt(StorageBody(raw, Pad4(dt.year), Pad2(dt.month), source), j) {
      assert StorageBody(raw, Pad4(dt.year), Pad2(dt.month), source)[j] == raw[j];
    }
  }

  /**
   * The round trip: the loader reads back, from the name the downloader generates, the
   * source, the moment of the run, its batch key, the partition of its month, and the
   * extension chosen from the URL.
   */
  lemma RoundTrip(raw: string, source: string, url: string, dt: DateTime)
    requires ValidDateTime(dt) && Readable(raw, source, dt)
    ensures var path := GeneratePath(DefaultStructure(), raw, source, url, dt);
            && path.Returned?
            && ExtractFileInfo(path.value)
               == Info(FileInfo(source, Pad4(dt.year), Pad2(dt.month), DateString(dt), TimeString(dt), BatchKey(dt),
                                dt, path.value))
            && MatchName(path.value).Some? && MatchName(path.value).value.ext == ExtensionFor(url)
  {
    DefaultPath(raw, source, url, dt);
    ExtractStorageName(raw, Pad4(dt.year), Pad2(dt.month), source, dt, ExtensionFor(url));
    MatchStorageName(raw, Pad4(dt.year), Pad2(dt.month), source, DateString(dt), TimeString(dt), ExtensionFor(url));
  }

  /** Every object a run stores is read back as part of one batch: the key of the run's
      moment, taken once at the start of the run. */
  lemma RunIsOneBatch(sourceName: Option<string>, sources: seq<SourceConfig>, bucketReady: bool, raw: string,
                      now: DateTime, transfer: (string, string) -> bool)
    requires ValidDateTime(now)
    requires forall s :: s in sources ==> Readable(raw, s.name, now)
    ensures forall u :: u in DownloadSpec(sourceName, sources, bucketReady, DefaultStructure(), raw, now, transfer).uploads
              ==> && ExtractFileInfo(u.path).Info?
                  && ExtractFileInfo(u.path).info.timestamp == BatchKey(now)
                  && ExtractFileInfo(u.path).info.datetime == now
                  && ExtractFileInfo(u.path).info.source == u.source
  {
    if bucketReady {
      var selected := Selected(sources, sourceName);
      EveryActiveSourceTransferred(selected, DefaultStructure(), raw, now, transfer);
      forall u | u in DownloadSpec(sourceName, sources, bucketReady, DefaultStructure(), raw, now, transfer).uploads
        ensures && ExtractFileInfo(u.path).Info?
                && ExtractFileInfo(u.path).info.timestamp == BatchKey(now)
                && ExtractFileInfo(u.path).info.datetime == now
                && ExtractFileInfo(u.path).info.source == u.source
      {
        var s :| s in selected && IsActive(s) && s.name == u.source && s.url == u.url
                 && GeneratePath(DefaultStructure(), raw, s.name, s.url, now) == Returned(u.path);
        RoundTrip(raw, s.name, s.url, now);
      }
    }
  }

  /** The month partition the loader lists for a key is the one the downloader wrote the
      batch into. */
  lemma KeyMonth(dt: DateTime)
    requires ValidDateTime(dt)
    ensures Take(BatchKey(dt), 7) == Pad4(dt.year) + "-" + Pad2(dt.month)
  {
    var k := BatchKey(dt);
    assert k == Pad4(dt.year) + "-" + Pad2(dt.month) + ("-" + Pad2(dt.day) + "_" + TimeString(dt));
  }

  /**
   * Once stored, an object of a run is among the files the loader loads for the run's
   * batch key (when listing the month does not raise).
   */
  lemma StoredObjectIsLoadedWithItsBatch(store: seq<string>, raw: string, source: string, url: string, dt: DateTime)
    requires ValidDateTime(dt) && Readable(raw, source, dt)
    requires GeneratePath(DefaultStructure(), raw, source, url, dt).Returned?
    requires GeneratePath(DefaultStructure(), raw, source, url, dt).value in store
    requires BatchFiles(store, raw, BatchKey(dt)).Returned?
    ensures ExtractFileInfo(GeneratePath(DefaultStructure(), raw, source, url, dt).value).Info?
    ensures ExtractFileInfo(GeneratePath(DefaultStructure(), raw, source, url, dt).value).info
            in BatchFiles(store, raw, BatchKey(dt)).value
  {
    var key := BatchKey(dt);
    var path := GeneratePath(DefaultStructure(), raw, source, url, dt).value;
    RoundTrip(raw, source, url, dt);
    PathInMonthPartition(raw, source, url, dt);
    StoredRecordInBatch(store, raw, key, path, ExtractFileInfo(path).info);
  }

  /** A name laid out as `<raw>/<year>-<month>/...` lies under that month's folder and,
      ending with its extension, is no directory marker. */
  lemma UnderMonthFolder(raw: string, year: string, month: string, source: string, date: string, time: string,
                         ext: string)
    requires ext == "parquet" || ext == "csv"
    ensures StartsWith(StorageName(raw, year, month, source, date, time, ext), raw + "/" + year + "-" + month + "/")
    ensures !EndsWith(StorageName(raw, year, month, source, date, time, ext), "/")
  {
    var prefix := raw + "/" + year + "-" + month + "/";
    var name := StorageName(raw, year, month, source, date, time, ext);
    assert name == prefix + (source + "__" + date + "_" + time + "." + ext);
    assert name[|name| - 1] == ext[|ext| - 1];
  }

  /** A generated name lies under the month partition the loader lists for its key. */
  lemma PathInMonthPartition(raw: string, source: string, url: string, dt: DateTime)
    requires ValidDateTime(dt)
    ensures var path := GeneratePath(DefaultStructure(), raw, source, url, dt);
            && path.Returned?
            && StartsWith(path.value, PrefixFor(raw, Some(Take(BatchKey(dt), 7))))
            && !EndsWith(path.value, "/")
  {
    DefaultPath(raw, source, url, dt);
    NameInMonthPartition(raw, source, ExtensionFor(url), dt);
  }

  /** The storage name of a run lies under the prefix listed for its key's month. */
  lemma NameInMonthPartition(raw: string, source: string, ext: string, dt: DateTime)
    requires ValidDateTime(dt) && (ext == "parquet" || ext == "csv")
    ensures var name := StorageName(raw, Pad4(dt.year), Pad2(dt.month), source, DateString(dt), TimeString(dt), ext);
            StartsWith(name, PrefixFor(raw, Some(Take(BatchKey(dt), 7)))) && !EndsWith(name, "/")
  {
    var year, month := Pad4(dt.year), Pad2(dt.month);
    KeyMonth(dt);
    assert PrefixFor(raw, Some(Take(BatchKey(dt), 7))) == raw + "/" + year + "-" + month + "/";
    UnderMonthFolder(raw, year, month, source, DateString(dt), TimeString(dt), ext);
  }
}
