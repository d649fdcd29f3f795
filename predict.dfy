/** The analysis page: the `.cdf` upload queue (validation, batch intake,
    removal, the six-file gate) and the mock result and time series that
    stand in for the analysis. */
module Predict {
  import opened Support
  import opened AnalysisResults

  /** A file offered by the picker or a drop: name, size and MIME type
      (`""` when the browser gives none). */
  datatype IncomingFile = IncomingFile(name: string, size: int, mime: string)

  /** An entry of the upload list. */
  datatype UploadedFile = UploadedFile(name: string, size: int, mime: string)

  const DefaultMime: string := "application/x-cdf"
  const RequiredFileCount: nat := 6

  /** `toLowerCase` on one character, for ASCII letters. */
  function LowerChar(c: char): (l: char)
    ensures 'A' <= c <= 'Z' ==> l as int == c as int + 32
    ensures !('A' <= c <= 'Z') ==> l == c
  {
    if 'A' <= c <= 'Z' then (c as int + 32) as char else c
  }

  function Lower(s: string): (l: string)
    ensures |l| == |s|
    ensures forall i | 0 <= i < |s| :: l[i] == LowerChar(s[i])
  {
    seq(|s|, i requires 0 <= i < |s| => LowerChar(s[i]))
  }

  predicate EndsWith(s: string, suffix: string) {
    |suffix| <= |s| && s[|s| - |suffix|..] == suffix
  }

  /** `validateCdfFile`: the lower-cased name ends with ".cdf"; the MIME
      type plays no part. */
  predicate ValidateCdfFile(f: IncomingFile) {
    EndsWith(Lower(f.name), ".cdf")
  }

  /** The check is case-insensitive: it accepts exactly the names whose last
      four characters are a dot and the letters c, d, f in either case. */
  lemma ValidateCdfFileCharacters(f: IncomingFile)
    ensures ValidateCdfFile(f) <==>
              var n := f.name; var k := |n|;
              4 <= k && n[k - 4] == '.' && (n[k - 3] == 'c' || n[k - 3] == 'C') &&
              (n[k - 2] == 'd' || n[k - 2] == 'D') && (n[k - 1] == 'f' || n[k - 1] == 'F')
  {
    var n, k := f.name, |f.name|;
    var l := Lower(n);
    if 4 <= k {
      assert l[k - 4..] == [l[k - 4], l[k - 3], l[k - 2], l[k - 1]];
    }
  }

  /** The entry `handleFiles` pushes for an accepted file. */
  function Upload(f: IncomingFile): (u: UploadedFile)
    ensures u.name == f.name && u.size == f.size
    ensures u.mime == (if f.mime == "" then DefaultMime else f.mime)
    ensures u.mime != ""
  {
    UploadedFile(f.name, f.size, if f.mime == "" then DefaultMime else f.mime)
  }

  function Names(files: seq<UploadedFile>): (ns: seq<string>)
    ensures |ns| == |files|
    ensures forall i | 0 <= i < |files| :: ns[i] == files[i].name
  {
    seq(|files|, i requires 0 <= i < |files| => files[i].name)
  }

  /** What happens to one file of a batch. */
  datatype Outcome = Added(entry: UploadedFile) | Duplicate | Rejected

  /** Rejected when not `.cdf`; otherwise a duplicate when its name is
      already in the list the batch started from, else added. */
  function Classify(existing: seq<UploadedFile>, f: IncomingFile): (o: Outcome)
    ensures o.Rejected? <==> !ValidateCdfFile(f)
    ensures o.Duplicate? <==> ValidateCdfFile(f) && f.name in Names(existing)
    ensures o.Added? ==> o.entry == Upload(f)
  {
    if !ValidateCdfFile(f) then Rejected
    else if f.name in Names(existing) then Duplicate
    else Added(Upload(f))
  }

  /** The three lists `handleFiles` builds from a batch. */
  datatype Intake = Intake(added: seq<UploadedFile>, duplicates: seq<string>, rejected: seq<string>)

  function IntakeOf(existing: seq<UploadedFile>, batch: seq<IncomingFile>): (r: Intake)
    ensures |r.added| + |r.duplicates| + |r.rejected| == |batch|
    decreases |batch|
  {
    if |batch| == 0 then Intake([], [], [])
    else
      var prior := IntakeOf(existing, batch[..|batch| - 1]);
      var f := batch[|batch| - 1];
      match Classify(existing, f)
      case Added(u) => prior.(added := prior.added + [u])
      case Duplicate => prior.(duplicates := prior.duplicates + [f.name])
      case Rejected => prior.(rejected := prior.rejected + [f.name])
  }

  /** Every entry of each list comes from a file of the batch with that
      outcome, and every file of the batch lands in its list. */
  lemma {:induction false} IntakeMembers(existing: seq<UploadedFile>, batch: seq<IncomingFile>)
    ensures var r := IntakeOf(existing, batch);
            (forall u | u in r.added :: exists i | 0 <= i < |batch| :: Classify(existing, batch[i]) == Added(u)) &&
            (forall n | n in r.duplicates :: exists i | 0 <= i < |batch| :: batch[i].name == n && Classify(existing, batch[i]).Duplicate?) &&
            (forall n | n in r.rejected :: exists i | 0 <= i < |batch| :: batch[i].name == n && !ValidateCdfFile(batch[i])) &&
            (forall i | 0 <= i < |batch| ::
              match Classify(existing, batch[i])
              case Added(u) => u in r.added
              case Duplicate => batch[i].name in r.duplicates
              case Rejected => batch[i].name in r.rejected)
    decreases |batch|
  {
    if |batch| > 0 {
      var init := batch[..|batch| - 1];
      IntakeMembers(existing, init);
      forall i | 0 <= i < |init| ensures batch[i] == init[i] { }
    }
  }

  /** Duplicates are looked for only in the list the batch started from, so
      a new `.cdf` name given twice in one batch is added twice. */
  lemma SameNameTwiceInOneBatch(existing: seq<UploadedFile>, f: IncomingFile)
    requires ValidateCdfFile(f) && f.name !in Names(existing)
    ensures IntakeOf(existing, [f, f]).added == [Upload(f), Upload(f)]
  {
    assert [f, f][..1] == [f];
    assert [f][..0] == [];
  }

  /** `rejectedFiles.join(', ')`. */
  function Join(names: seq<string>, sep: string): string
    decreases |names|
  {
    if |names| == 0 then ""
    else if |names| == 1 then names[0]
    else Join(names[..|names| - 1], sep) + sep + names[|names| - 1]
  }

  function TotalLength(names: seq<string>): nat
    decreases |names|
  {
    if |names| == 0 then 0 else TotalLength(names[..|names| - 1]) + |names[|names| - 1]|
  }

  /** The joined text holds every name and one separator between each pair. */
  lemma {:induction false} JoinLength(names: seq<string>, sep: string)
    requires |names| > 0
    ensures |Join(names, sep)| == TotalLength(names) + (|names| - 1) * |sep|
    decreases |names|
  {
    if |names| == 1 {
      assert names[..0] == [];
    } else {
      JoinLength(names[..|names| - 1], sep);
    }
  }

  /** The names come out in order: the text starts with the first name and
      ends with the last. */
  lemma {:induction false} JoinEnds(names: seq<string>, sep: string)
    requires |names| > 0
    ensures EndsWith(Join(names, sep), names[|names| - 1])
    ensures |names[0]| <= |Join(names, sep)| && Join(names, sep)[..|names[0]|] == names[0]
    decreases |names|
  {
    var j := Join(names, sep);
    if |names| > 1 {
      var init := names[..|names| - 1];
      JoinEnds(init, sep);
      assert init[0] == names[0];
      assert j == Join(init, sep) + sep + names[|names| - 1];
      assert j[..|names[0]|] == Join(init, sep)[..|names[0]|];
    }
  }

  /** A slice inside the left part of a concatenation. */
  lemma SliceLeft(a: string, b: string, k: nat, l: nat)
    requires k <= l <= |a|
    ensures (a + b)[k..l] == a[k..l]
  {
  }

  /** A slice inside the right part of a concatenation. */
  lemma SliceRight(a: string, b: string, k: nat, l: nat)
    requires |a| <= k <= l <= |a| + |b|
    ensures (a + b)[k..l] == b[k - |a|..l - |a|]
  {
  }

  /** Where name `i` starts in the joined text: after the names before it
      and one separator for each of them. */
  function NameOffset(names: seq<string>, sep: string, i: nat): nat
    requires i <= |names|
  {
    TotalLength(names[..i]) + i * |sep|
  }

  /** The last name sits right after the joined others and a separator. */
  lemma LastNameOffset(names: seq<string>, sep: string)
    requires 1 < |names|
    ensures NameOffset(names, sep, |names| - 1) == |Join(names[..|names| - 1], sep)| + |sep|
  {
    var n := |names|;
    JoinLength(names[..n - 1], sep);
    assert names[..n - 1][..n - 1] == names[..n - 1];
    assert (n - 1) * |sep| == (n - 2) * |sep| + |sep|;
  }

  /** An earlier name keeps its offset when a name is added at the end. */
  lemma InitNameOffset(names: seq<string>, sep: string, i: nat)
    requires i < |names| - 1
    ensures NameOffset(names, sep, i) == NameOffset(names[..|names| - 1], sep, i)
  {
    assert names[..|names| - 1][..i] == names[..i];
  }

  /** Every name has its place in the joined text: name `i` starts after
      the names before it and `i` separators, and a separator precedes it. */
  lemma {:induction false} JoinPlacesName(names: seq<string>, sep: string, i: nat)
    requires i < |names|
    ensures var o := NameOffset(names, sep, i);
            o + |names[i]| <= |Join(names, sep)| && Join(names, sep)[o..o + |names[i]|] == names[i] &&
            (0 < i ==> |sep| <= o && Join(names, sep)[o - |sep|..o] == sep)
    decreases |names|
  {
    var n := |names|;
    if n == 1 {
      assert names[..0] == [];
    } else {
      var init := names[..n - 1];
      var a := Join(init, sep) + sep;
      assert Join(names, sep) == a + names[n - 1];
      var o := NameOffset(names, sep, i);
      if i == n - 1 {
        LastNameOffset(names, sep);
        SliceRight(a, names[n - 1], o, o + |names[i]|);
        SliceLeft(a, names[n - 1], o - |sep|, o);
        SliceRight(Join(init, sep), sep, o - |sep|, o);
      } else {
        JoinPlacesName(init, sep, i);
        InitNameOffset(names, sep, i);
        assert init[i] == names[i];
        SliceLeft(Join(init, sep), sep, o, o + |names[i]|);
        SliceLeft(a, names[n - 1], o, o + |names[i]|);
        if 0 < i {
          SliceLeft(Join(init, sep), sep, o - |sep|, o);
          SliceLeft(a, names[n - 1], o - |sep|, o);
        }
      }
    }
  }

  const RejectionPrefix: string := "Only .cdf files are allowed. Rejected: "

  /** The "Invalid file format" notice: only when something was rejected. */
  function RejectionMessage(rejected: seq<string>): (m: Option<string>)
    ensures m.Some? <==> |rejected| > 0
    ensures m.Some? ==> |RejectionPrefix| < |m.value| + 1 && m.value[..|RejectionPrefix|] == RejectionPrefix
    ensures m.Some? ==> m.value[|RejectionPrefix|..] == Join(rejected, ", ")
  {
    if |rejected| > 0 then Some(RejectionPrefix + Join(rejected, ", ")) else None
  }

  /** The notice lists every rejected name, in the order of the batch,
      separated by ", ". */
  lemma RejectionMessageListsNames(rejected: seq<string>, i: nat)
    requires i < |rejected|
    ensures var m := RejectionMessage(rejected).value;
            var o := |RejectionPrefix| + NameOffset(rejected, ", ", i);
            o + |rejected[i]| <= |m| && m[o..o + |rejected[i]|] == rejected[i] &&
            (0 < i ==> m[o - 2..o] == ", ")
  {
    JoinPlacesName(rejected, ", ", i);
    var m := RejectionMessage(rejected).value;
    var j := Join(rejected, ", ");
    var o := NameOffset(rejected, ", ", i);
    assert m == RejectionPrefix + j;
    assert m[|RejectionPrefix| + o..|RejectionPrefix| + o + |rejected[i]|] == j[o..o + |rejected[i]|];
    if 0 < i {
      assert m[|RejectionPrefix| + o - 2..|RejectionPrefix| + o] == j[o - 2..o];
    }
  }

  /** `handleFiles`: sorts the batch in order and appends the accepted files
      after the existing list. Returns the new list, the names reported as
      already uploaded, and the rejection notice if any. */
  method HandleFiles(existing: seq<UploadedFile>, batch: seq<IncomingFile>)
    returns (files: seq<UploadedFile>, duplicates: seq<string>, message: Option<string>)
    ensures var r := IntakeOf(existing, batch);
            files == existing + r.added && duplicates == r.duplicates && message == RejectionMessage(r.rejected)
    ensures |files| <= |existing| + |batch|
  {
    var newFiles: seq<UploadedFile> := [];
    var rejectedFiles: seq<string> := [];
    duplicates := [];
    for i := 0 to |batch|
      invariant IntakeOf(existing, batch[..i]) == Intake(newFiles, duplicates, rejectedFiles)
    {
      var f := batch[i];
      assert batch[..i + 1][..i] == batch[..i] && batch[..i + 1][i] == f;
      if ValidateCdfFile(f) {
        var existsAlready := f.name in Names(existing);
        if !existsAlready {
          newFiles := newFiles + [Upload(f)];
        } else {
          duplicates := duplicates + [f.name];
        }
      } else {
        rejectedFiles := rejectedFiles + [f.name];
      }
    }
    assert batch[..|batch|] == batch;
    message := RejectionMessage(rejectedFiles);
    files := existing;
    if |newFiles| > 0 {
      files := existing + newFiles;
    }
  }

  /** `prev.filter((_, i) => i !== index)`, walking the list from position `from`. */
  function KeepOthers(s: seq<UploadedFile>, index: int, from: int): (r: seq<UploadedFile>)
    ensures |r| <= |s|
    decreases |s|
  {
    if |s| == 0 then []
    else (if from == index then [] else [s[0]]) + KeepOthers(s[1..], index, from + 1)
  }

  /** `removeFile(index)`: the list without its `index`-th entry. */
  function RemoveFile(files: seq<UploadedFile>, index: int): seq<UploadedFile> {
    KeepOthers(files, index, 0)
  }

  lemma {:induction false} KeepOthersSplices(s: seq<UploadedFile>, index: int, from: int)
    ensures from <= index < from + |s| ==> KeepOthers(s, index, from) == s[..index - from] + s[index - from + 1..]
    ensures !(from <= index < from + |s|) ==> KeepOthers(s, index, from) == s
    decreases |s|
  {
    if |s| > 0 {
      var t := s[1..];
      KeepOthersSplices(t, index, from + 1);
      if from == index {
        assert KeepOthers(s, index, from) == KeepOthers(t, index, from + 1);
        assert s[..0] == [] && t == s[index - from + 1..];
      } else {
        assert KeepOthers(s, index, from) == [s[0]] + KeepOthers(t, index, from + 1);
        if from < index < from + |s| {
          var k := index - from;
          assert s[..k] == [s[0]] + t[..k - 1];
          assert s[k + 1..] == t[k..];
        } else {
          assert s == [s[0]] + t;
        }
      }
    }
  }

  /** Removing entry `i` keeps every other entry, in order; an index outside
      the list leaves it as it is. */
  lemma RemoveFileSplices(files: seq<UploadedFile>, index: int)
    ensures 0 <= index < |files| ==>
              RemoveFile(files, index) == files[..index] + files[index + 1..] &&
              |RemoveFile(files, index)| == |files| - 1
    ensures !(0 <= index < |files|) ==> RemoveFile(files, index) == files
  {
    KeepOthersSplices(files, index, 0);
  }

  /** `isReadyForAnalysis`. */
  predicate IsReadyForAnalysis(files: seq<UploadedFile>) {
    |files| >= RequiredFileCount
  }

  /** The draws `generateMockResult` makes. */
  datatype ResultDraws = ResultDraws(
    cmeType: Unit, shockSpeed: Unit, electronDensity: Unit, magneticField: Unit, plasmaBeta: Unit,
    probability: Unit, confidence: Unit)

  /** `cmeTypes[Math.floor(Math.random() * 4)]`. */
  function SelectType(draw: Unit): CmeType {
    var k := (draw * 4.0).Floor;
    if k <= 0 then NoCme else if k == 1 then TypeII else if k == 2 then TypeIII else TypeIV
  }

  /** Each of the four types is drawn for a quarter of the draws. */
  lemma SelectTypeQuarters(draw: Unit)
    ensures SelectType(draw) == NoCme <==> draw < 0.25
    ensures SelectType(draw) == TypeII <==> 0.25 <= draw < 0.5
    ensures SelectType(draw) == TypeIII <==> 0.5 <= draw < 0.75
    ensures SelectType(draw) == TypeIV <==> 0.75 <= draw
  {
  }

  /** `generateMockResult`, with `now` for the clock; the attached series is
      `generateMockTimeSeriesData()` read at `seriesNow` with the draws `ds`. */
  function GenerateMockResult(d: ResultDraws, now: int, seriesNow: int, ds: seq<SampleDraws>): (r: CmeResult)
    requires |ds| == MockSampleCount
    ensures r.detected <==> r.cmeType != NoCme
    ensures r.cmeType == SelectType(d.cmeType)
    ensures r.characteristics.shockSpeed.Some? <==> r.detected
    ensures r.detected ==> 500.0 <= r.characteristics.shockSpeed.value < 1500.0
    ensures r.detected ==> 0.6 <= r.probability < 1.0
    ensures !r.detected ==> 0.0 <= r.probability < 0.3
    ensures 0.7 <= r.confidence < 1.0
    ensures r.characteristics.electronDensity.Some? && 10.0 <= r.characteristics.electronDensity.value < 60.0
    ensures r.characteristics.magneticField.Some? && 5.0 <= r.characteristics.magneticField.value < 25.0
    ensures r.characteristics.plasmaBeta.Some? && 0.1 <= r.characteristics.plasmaBeta.value < 2.1
    ensures r.timestamp == now && r.timeSeries == Some(MockSeries(seriesNow, ds))
    ensures |r.timeSeries.value.timestamps| == MockSampleCount &&
            r.timeSeries.value.timestamps[0] == seriesNow - MockSampleCount * SampleSpacing
  {
    var t := SelectType(d.cmeType);
    var detected := t != NoCme;
    CmeResult(
      detected, t,
      if detected then d.probability * 0.4 + 0.6 else d.probability * 0.3,
      d.confidence * 0.3 + 0.7,
      now,
      Characteristics(
        if detected then Some(d.shockSpeed * 1000.0 + 500.0) else None,
        Some(d.electronDensity * 50.0 + 10.0),
        Some(d.magneticField * 20.0 + 5.0),
        Some(d.plasmaBeta * 2.0 + 0.1)),
      Some(MockSeries(seriesNow, ds)))
  }

  /** `startAnalysis`: nothing below six files; otherwise the mock result. */
  function StartAnalysis(files: seq<UploadedFile>, d: ResultDraws, now: int, seriesNow: int, ds: seq<SampleDraws>)
    : (r: Option<CmeResult>)
    requires |ds| == MockSampleCount
    ensures r.Some? <==> IsReadyForAnalysis(files)
    ensures r.Some? ==> r.value == GenerateMockResult(d, now, seriesNow, ds)
  {
    if |files| < 6 then None else Some(GenerateMockResult(d, now, seriesNow, ds))
  }

  /** The required file names are never consulted: six copies of any `.cdf`
      file dropped on an empty list are enough to start an analysis. */
  lemma AnySixCdfFilesSuffice(f: IncomingFile, d: ResultDraws, now: int, seriesNow: int, ds: seq<SampleDraws>)
    requires ValidateCdfFile(f) && |ds| == MockSampleCount
    ensures var r := IntakeOf([], [f, f, f, f, f, f]);
            StartAnalysis(r.added, d, now, seriesNow, ds).Some?
  {
    AllNewCdfFilesAdded([], [f, f, f, f, f, f]);
  }

  /** A batch of new `.cdf` names is appended whole, in order. */
  lemma {:induction false} AllNewCdfFilesAdded(existing: seq<UploadedFile>, batch: seq<IncomingFile>)
    requires forall i | 0 <= i < |batch| :: ValidateCdfFile(batch[i]) && batch[i].name !in Names(existing)
    ensures |IntakeOf(existing, batch).added| == |batch|
    ensures forall i | 0 <= i < |batch| :: IntakeOf(existing, batch).added[i] == Upload(batch[i])
    decreases |batch|
  {
    if |batch| > 0 {
      var init := batch[..|batch| - 1];
      AllNewCdfFilesAdded(existing, init);
    }
  }

  /** The draws for one sample: the sine and cosine terms and the four noise draws. */
  datatype SampleDraws = SampleDraws(
    sinField: Trig, cosDensity: Trig, sinVelocity: Trig, cosTemperature: Trig,
    field: Unit, density: Unit, velocity: Unit, temperature: Unit)

  const SampleSpacing: int := 12000
  const MockSampleCount: nat := 100

  /** The series `generateMockTimeSeriesData` builds, one sample per draw;
      sample `i` is stamped `(n - i) * 12000` ms before `now`. */
  function MockSeries(now: int, ds: seq<SampleDraws>): TimeSeries {
    var n := |ds|;
    TimeSeries(
      seq(n, i requires 0 <= i < n => now - (n - i) * SampleSpacing),
      seq(n, i requires 0 <= i < n => 5.0 + ds[i].sinField * 3.0 + ds[i].field * 2.0),
      seq(n, i requires 0 <= i < n => 10.0 + ds[i].cosDensity * 5.0 + ds[i].density * 3.0),
      seq(n, i requires 0 <= i < n => 400.0 + ds[i].sinVelocity * 100.0 + ds[i].velocity * 50.0),
      seq(n, i requires 0 <= i < n => 100000.0 + ds[i].cosTemperature * 20000.0 + ds[i].temperature * 10000.0))
  }

  /** Five arrays of one length; timestamps ascending 12000 ms apart with the
      last 12000 ms before `now`; every sample within its band. */
  lemma MockSeriesShape(now: int, ds: seq<SampleDraws>)
    requires |ds| > 0
    ensures var s := MockSeries(now, ds);
            |s.timestamps| == |ds| && |s.magneticField| == |ds| && |s.electronDensity| == |ds| &&
            |s.velocity| == |ds| && |s.temperature| == |ds| &&
            s.timestamps[|ds| - 1] == now - SampleSpacing &&
            (forall i | 0 < i < |ds| :: s.timestamps[i] == s.timestamps[i - 1] + SampleSpacing) &&
            (forall i, j | 0 <= i < j < |ds| :: s.timestamps[i] < s.timestamps[j]) &&
            (forall i | 0 <= i < |ds| ::
              2.0 <= s.magneticField[i] < 10.0 && 5.0 <= s.electronDensity[i] < 18.0 &&
              300.0 <= s.velocity[i] < 550.0 && 80000.0 <= s.temperature[i] < 130000.0)
  {
  }

  /** `generateMockTimeSeriesData`: the loop pushing one sample per step. */
  method GenerateMockTimeSeries(now: int, ds: seq<SampleDraws>) returns (s: TimeSeries)
    requires |ds| == 100
    ensures s == MockSeries(now, ds)
    ensures |s.timestamps| == 100 && s.timestamps[0] == now - 100 * SampleSpacing
  {
    var timestamps: seq<int> := [];
    var magneticField: seq<real> := [];
    var electronDensity: seq<real> := [];
    var velocity: seq<real> := [];
    var temperature: seq<real> := [];
    ghost var m := MockSeries(now, ds);
    for i := 0 to 100
      invariant timestamps == m.timestamps[..i] && magneticField == m.magneticField[..i]
      invariant electronDensity == m.electronDensity[..i] && velocity == m.velocity[..i]
      invariant temperature == m.temperature[..i]
    {
      timestamps := timestamps + [now - (100 - i) * 12000];
      magneticField := magneticField + [5.0 + ds[i].sinField * 3.0 + ds[i].field * 2.0];
      electronDensity := electronDensity + [10.0 + ds[i].cosDensity * 5.0 + ds[i].density * 3.0];
      velocity := velocity + [400.0 + ds[i].sinVelocity * 100.0 + ds[i].velocity * 50.0];
      temperature := temperature + [100000.0 + ds[i].cosTemperature * 20000.0 + ds[i].temperature * 10000.0];
    }
    assert m.timestamps[..100] == m.timestamps && m.magneticField[..100] == m.magneticField;
    assert m.electronDensity[..100] == m.electronDensity && m.velocity[..100] == m.velocity;
    assert m.temperature[..100] == m.temperature;
    s := TimeSeries(timestamps, magneticField, electronDensity, velocity, temperature);
  }
}
