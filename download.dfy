/**
 * Stage 1 (functions/step1_download.py): give every object of a run one shared batch
 * moment by writing it into the object's name, and stream each active source into
 * storage under that name.
 *
 * The transfer of one source (HTTP download streamed into storage, which catches every
 * error of its own and answers `True` or `False`) is a function supplied by the caller.
 */
module Download {
  import opened Common
  import opened Keys
  import opened Template

  // ---------------------------------------------------------------------------
  // generer_chemin_gcs
  // ---------------------------------------------------------------------------

  /** The extension written into a name, chosen from the source's URL. */
  function ExtensionFor(url: string): (ext: string)
    ensures ext == "parquet" || ext == "csv"
    ensures ext == "csv" <==> !Contains(AsciiLower(url), "parquet") && Contains(AsciiLower(url), "csv")
  {
    var lower := AsciiLower(url);
    if Contains(lower, "parquet") then "parquet"
    else if Contains(lower, "csv") then "csv"
    else "parquet"
  }

  /** Index of the last `c` in `s`, if any. */
  function LastIndexOf(s: string, c: char): (r: Option<nat>)
    ensures r.Some? ==> r.value < |s| && s[r.value] == c && forall j :: r.value < j < |s| ==> s[j] != c
    ensures r.None? ==> c !in s
  {
    if s == [] then None
    else if s[|s| - 1] == c then Some(|s| - 1)
    else LastIndexOf(s[..|s| - 1], c)
  }

  /** `s.rsplit('.', 1)[0]`: the text before the last dot, or all of `s` when it has none. */
  function BeforeLastDot(s: string): (r: string)
    ensures StartsWith(s, r)
    ensures '.' !in s ==> r == s
    ensures '.' in s ==> |r| < |s| && s[|r|] == '.' && forall j :: |r| < j < |s| ==> s[j] != '.'
  {
    match LastIndexOf(s, '.')
    case None => s
    case Some(i) => s[..i]
  }

  /** The text before the last dot of `u + "." + e` is `u` when `e` has no dot. */
  lemma BeforeLastDotOfExtension(u: string, e: string)
    requires '.' !in e
    ensures BeforeLastDot(u + "." + e) == u
  {
    var s := u + "." + e;
    assert s[|u|] == '.';
    assert s[..|u|] == u;
  }

  /** The values `generer_chemin_gcs` gives the structure's holes. */
  function PathFields(raw: string, source: string, dt: DateTime): map<string, string>
    requires ValidDateTime(dt)
  {
    map["raw_folder" := raw, "source" := source, "year" := Pad4(dt.year), "month" := Pad2(dt.month),
        "date" := DateString(dt), "time" := TimeString(dt)]
  }

  /**
   * `generer_chemin_gcs(source, url, dt)`: fill the configured structure, then replace
   * whatever follows its last dot by the extension chosen from the URL.  A structure
   * hole without a value raises `KeyError`.
   */
  function GeneratePath(structure: seq<Piece>, raw: string, source: string, url: string, dt: DateTime)
    : (r: Outcome<string>)
    requires ValidDateTime(dt)
    ensures r.Returned? <==> Bound(structure, PathFields(raw, source, dt))
    ensures r.Returned? ==> EndsWith(r.value, "." + ExtensionFor(url))
  {
    match Fill(structure, PathFields(raw, source, dt))
    case None => Raised
    case Some(filled) =>
      var ext, stem := ExtensionFor(url), BeforeLastDot(filled);
      EndsWithAppended(stem, "." + ext);
      assert stem + "." + ext == stem + ("." + ext);
      Returned(stem + "." + ext)
  }

  lemma GeneratePathOfFilled(structure: seq<Piece>, raw: string, source: string, url: string, dt: DateTime,
                              filled: string)
    requires ValidDateTime(dt) && Fill(structure, PathFields(raw, source, dt)) == Some(filled)
    ensures GeneratePath(structure, raw, source, url, dt) == Returned(BeforeLastDot(filled) + "." + ExtensionFor(url))
  {
  }

  lemma EndsWithAppended(a: string, b: string)
    ensures EndsWith(a + b, b)
  {
    assert (a + b)[|a|..] == b;
  }

  /** A hole followed by literal text. */
  function HoleThen(name: string, text: string): seq<Piece>
  {
    [Field(name), Lit(text)]
  }

  lemma FillHoleThen(name: string, text: string, env: map<string, string>)
    requires name in env
    ensures Fill(HoleThen(name, text), env) == Some(env[name] + text)
  {
    var t := HoleThen(name, text);
    assert [Lit(text)][1..] == [];
    assert Fill([Lit(text)], env) == Some(text + "");
    assert text + "" == text;
    assert t[1..] == [Lit(text)];
  }

  /** The structure the pipeline is configured with:
      `{raw_folder}/{year}-{month}/{source}__{date}_{time}.parquet`. */
  function DefaultStructure(): seq<Piece>
  {
    HoleThen("raw_folder", "/") + HoleThen("year", "-") + HoleThen("month", "/") + HoleThen("source", "__")
    + HoleThen("date", "_") + HoleThen("time", ".parquet")
  }

  /** Filling a run of holes-then-text, one pair after another. */
  lemma FillPairs(a: seq<Piece>, name: string, text: string, env: map<string, string>, sa: string)
    requires name in env && Fill(a, env) == Some(sa)
    ensures Fill(a + HoleThen(name, text), env) == Some(sa + env[name] + text)
  {
    FillHoleThen(name, text, env);
    assert Bound(HoleThen(name, text), env);
    FillConcat(a, HoleThen(name, text), env);
    assert sa + (env[name] + text) == sa + env[name] + text;
  }

  /** The configured structure filled with the fields of a moment. */
  lemma FillDefault(raw: string, source: string, dt: DateTime)
    requires ValidDateTime(dt)
    ensures Fill(DefaultStructure(), PathFields(raw, source, dt))
            == Some(raw + "/" + Pad4(dt.year) + "-" + Pad2(dt.month) + "/" + source + "__" + DateString(dt) + "_"
                    + TimeString(dt) + ".parquet")
  {
    var env := PathFields(raw, source, dt);
    var y, m, d := Pad4(dt.year), Pad2(dt.month), DateString(dt);
    var p1 := HoleThen("raw_folder", "/");
    var p2 := p1 + HoleThen("year", "-");
    var p3 := p2 + HoleThen("month", "/");
    var p4 := p3 + HoleThen("source", "__");
    var p5 := p4 + HoleThen("date", "_");
    FillHoleThen("raw_folder", "/", env);
    FillPairs(p1, "year", "-", env, raw + "/");
    FillPairs(p2, "month", "/", env, raw + "/" + y + "-");
    FillPairs(p3, "source", "__", env, raw + "/" + y + "-" + m + "/");
    FillPairs(p4, "date", "_", env, raw + "/" + y + "-" + m + "/" + source + "__");
    FillPairs(p5, "time", ".parquet", env, raw + "/" + y + "-" + m + "/" + source + "__" + d + "_");
  }

  /** With the configured structure, the name is the folder, the year-month partition of
      the moment, then the source, the moment's date and time, and the URL's extension. */
  lemma DefaultPath(raw: string, source: string, url: string, dt: DateTime)
    requires ValidDateTime(dt)
    ensures GeneratePath(DefaultStructure(), raw, source, url, dt)
            == Returned(StorageName(raw, Pad4(dt.year), Pad2(dt.month), source, DateString(dt), TimeString(dt),
                                    ExtensionFor(url)))
  {
    var u := raw + "/" + Pad4(dt.year) + "-" + Pad2(dt.month) + "/" + source + "__" + DateString(dt) + "_"
             + TimeString(dt);
    FillDefault(raw, source, dt);
    GeneratePathOfFilled(DefaultStructure(), raw, source, url, dt, u + ".parquet");
    ReplaceExtension(u, ExtensionFor(url));
  }

  /** `rsplit` drops the configured `.parquet` and the chosen extension takes its place. */
  lemma ReplaceExtension(u: string, ext: string)
    ensures BeforeLastDot(u + ".parquet") + "." + ext == u + "." + ext
  {
    assert u + ".parquet" == u + "." + "parquet";
    BeforeLastDotOfExtension(u, "parquet");
  }

  // ---------------------------------------------------------------------------
  // download_data
  // ---------------------------------------------------------------------------

  /** One entry of the configured sources; `active` is `None` when the entry has no such key. */
  datatype SourceConfig = SourceConfig(name: string, url: string, active: Option<bool>)

  /** `source.get('active', True)` */
  predicate IsActive(s: SourceConfig)
  {
    s.active != Some(false)
  }

  /** One transfer attempted: this source's URL streamed into the object `path`. */
  datatype Upload = Upload(source: string, url: string, path: string)

  /** The sources a run works on: all of them, or those with the requested name. */
  function Selected(sources: seq<SourceConfig>, sourceName: Option<string>): (r: seq<SourceConfig>)
    ensures forall s :: s in r <==> s in sources && (!Given(sourceName) || s.name == sourceName.value)
  {
    if !Given(sourceName) then sources
    else if sources == [] then []
    else
      var init, last := sources[..|sources| - 1], sources[|sources| - 1];
      assert sources == init + [last];
      if last.name == sourceName.value then Selected(init, sourceName) + [last] else Selected(init, sourceName)
  }

  /** The run's state after some sources: the result per source name and the transfers attempted. */
  datatype Progress = Progress(results: map<string, bool>, uploads: seq<Upload>)

  /** What the loop does with one source: an inactive one is skipped; a name that cannot be
      generated records `False`; otherwise the transfer's answer is recorded. */
  function Attempt(p: Progress, s: SourceConfig, structure: seq<Piece>, raw: string, dt: DateTime,
                   transfer: (string, string) -> bool): Progress
    requires ValidDateTime(dt)
  {
    if !IsActive(s) then p
    else match GeneratePath(structure, raw, s.name, s.url, dt)
      case Raised => Progress(p.results[s.name := false], p.uploads)
      case Returned(path) => Progress(p.results[s.name := transfer(s.url, path)], p.uploads + [Upload(s.name, s.url, path)])
  }

  function AttemptAll(sources: seq<SourceConfig>, structure: seq<Piece>, raw: string, dt: DateTime,
                      transfer: (string, string) -> bool): Progress
    requires ValidDateTime(dt)
  {
    if sources == [] then Progress(map[], [])
    else Attempt(AttemptAll(sources[..|sources| - 1], structure, raw, dt, transfer), sources[|sources| - 1],
                 structure, raw, dt, transfer)
  }

  /** `download_data(source_name)` as a function of the configuration, whether the bucket
      could be checked or created, and the moment taken once at the start of the run. */
  function DownloadSpec(sourceName: Option<string>, sources: seq<SourceConfig>, bucketReady: bool,
                        structure: seq<Piece>, raw: string, now: DateTime, transfer: (string, string) -> bool)
    : Progress
    requires ValidDateTime(now)
  {
    if !bucketReady then Progress(map[], [])
    else AttemptAll(Selected(sources, sourceName), structure, raw, now, transfer)
  }

  /** The loop of `download_data`. */
  method DownloadData(sourceName: Option<string>, sources: seq<SourceConfig>, bucketReady: bool,
                      structure: seq<Piece>, raw: string, now: DateTime, transfer: (string, string) -> bool)
    returns (results: map<string, bool>, uploads: seq<Upload>)
    requires ValidDateTime(now)
    ensures Progress(results, uploads) == DownloadSpec(sourceName, sources, bucketReady, structure, raw, now, transfer)
  {
    results, uploads := map[], [];
    if !bucketReady {
      return;
    }
    var selected := sources;
    if Given(sourceName) {
      selected := Selected(sources, sourceName);
      if selected == [] {
        return;
      }
    }
    var i := 0;
    while i < |selected|
      invariant 0 <= i <= |selected|
      invariant Progress(results, uploads) == AttemptAll(selected[..i], structure, raw, now, transfer)
    {
      var s := selected[i];
      assert selected[..i + 1][..i] == selected[..i];
      assert AttemptAll(selected[..i + 1], structure, raw, now, transfer)
             == Attempt(Progress(results, uploads), s, structure, raw, now, transfer);
      if !IsActive(s) {
        i := i + 1;
        continue;
      }
      var path := GeneratePath(structure, raw, s.name, s.url, now);
      if path.Raised? {
        results := results[s.name := false];
      } else {
        var ok := transfer(s.url, path.value);
        uploads := uploads + [Upload(s.name, s.url, path.value)];
        results := results[s.name := ok];
      }
      i := i + 1;
    }
    assert selected[..i] == selected;
  }

  // ---------------------------------------------------------------------------
  // Properties of a run
  // ---------------------------------------------------------------------------

  /** The run reports exactly the active sources it worked on, by name. */
  lemma {:induction false} ResultKeys(sources: seq<SourceConfig>, structure: seq<Piece>, raw: string, dt: DateTime,
                                      transfer: (string, string) -> bool)
    requires ValidDateTime(dt)
    ensures forall n :: n in AttemptAll(sources, structure, raw, dt, transfer).results
                        <==> exists s :: s in sources && IsActive(s) && s.name == n
  {
    if sources != [] {
      var init := sources[..|sources| - 1];
      ResultKeys(init, structure, raw, dt, transfer);
      assert sources == init + [sources[|sources| - 1]];
    }
  }

  /**
   * A failure does not stop the run: every active source whose name can be generated is
   * transferred, under the name generated from the run's one moment, and every transfer
   * is of such a source.
   */
  lemma {:induction false} EveryActiveSourceTransferred(sources: seq<SourceConfig>, structure: seq<Piece>, raw: string,
                                                        dt: DateTime, transfer: (string, string) -> bool)
    requires ValidDateTime(dt)
    ensures var uploads := AttemptAll(sources, structure, raw, dt, transfer).uploads;
            && (forall s :: s in sources && IsActive(s) && GeneratePath(structure, raw, s.name, s.url, dt).Returned?
                  ==> Upload(s.name, s.url, GeneratePath(structure, raw, s.name, s.url, dt).value) in uploads)
            && (forall u :: u in uploads ==>
                  exists s :: (s in sources && IsActive(s) && s.name == u.source && s.url == u.url
                               && GeneratePath(structure, raw, s.name, s.url, dt) == Returned(u.path)))
  {
    if sources != [] {
      var init, last := sources[..|sources| - 1], sources[|sources| - 1];
      EveryActiveSourceTransferred(init, structure, raw, dt, transfer);
      assert sources == init + [last];
      var before := AttemptAll(init, structure, raw, dt, transfer).uploads;
      var after := AttemptAll(sources, structure, raw, dt, transfer).uploads;
      forall u | u in after
        ensures exists s :: (s in sources && IsActive(s) && s.name == u.source && s.url == u.url
                             && GeneratePath(structure, raw, s.name, s.url, dt) == Returned(u.path))
      {
        if u !in before {
          assert u == Upload(last.name, last.url, u.path);
          assert last in sources;
        } else {
          var s :| s in init && IsActive(s) && s.name == u.source && s.url == u.url
                   && GeneratePath(structure, raw, s.name, s.url, dt) == Returned(u.path);
          assert s in sources;
        }
      }
    }
  }

  /** With distinct source names, each reported result is that source's own outcome. */
  lemma {:induction false} ResultOfEachSource(sources: seq<SourceConfig>, structure: seq<Piece>, raw: string,
                                              dt: DateTime, transfer: (string, string) -> bool, i: nat)
    requires ValidDateTime(dt)
    requires forall a, b :: 0 <= a < b < |sources| ==> sources[a].name != sources[b].name
    requires i < |sources| && IsActive(sources[i])
    ensures var s := sources[i];
            var path := GeneratePath(structure, raw, s.name, s.url, dt);
            && s.name in AttemptAll(sources, structure, raw, dt, transfer).results
            && AttemptAll(sources, structure, raw, dt, transfer).results[s.name]
               == (path.Returned? && transfer(s.url, path.value))
  {
    var init, last := sources[..|sources| - 1], sources[|sources| - 1];
    var before := AttemptAll(init, structure, raw, dt, transfer);
    assert AttemptAll(sources, structure, raw, dt, transfer) == Attempt(before, last, structure, raw, dt, transfer);
    if i < |sources| - 1 {
      ResultOfEachSource(init, structure, raw, dt, transfer, i);
      assert sources[i] == init[i] && sources[i].name != last.name;
      AttemptKeepsOthers(before, last, sources[i].name, structure, raw, dt, transfer);
    }
  }

  /** Attempting one source leaves the results of the other names as they were. */
  lemma AttemptKeepsOthers(p: Progress, s: SourceConfig, name: string, structure: seq<Piece>, raw: string,
                           dt: DateTime, transfer: (string, string) -> bool)
    requires ValidDateTime(dt) && name != s.name && name in p.results
    ensures name in Attempt(p, s, structure, raw, dt, transfer).results
    ensures Attempt(p, s, structure, raw, dt, transfer).results[name] == p.results[name]
  {
  }
}
