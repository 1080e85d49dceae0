/**
 * The metadata projection of the meta-information panel: which rows appear,
 * in which order, and the strings the panel builds itself (CPU counts,
 * buffer size and duration, build identity).
 */
module MetaInfo {
  import opened Wrappers
  import opened Decimal
  import opened ProfileMeta
  import opened Symbolication

  const StartTimeHeading := "Recording started:"
  const IntervalHeading := "Interval:"
  const VersionHeading := "Profile Version:"
  const CapacityHeading := "Buffer Capacity:"
  const DurationHeading := "Buffer Duration:"
  const FeaturesName := "Features"
  const ThreadsName := "Threads Filter"
  const ProductHeading := "Name and version:"
  const ChannelHeading := "Update Channel:"
  const BuildIdHeading := "Build ID:"
  const BuildTypeHeading := "Build Type:"
  const ExtensionsName := "Extensions"
  const OsHeading := "OS:"
  const AbiHeading := "ABI:"
  const CpuHeading := "CPU:"
  const SpeedIndexHeading := "Speed Index:"
  const PerceptualHeading := "Perceptual Speed Index:"
  const ContentfulHeading := "Contentful Speed Index:"

  const ApplicationTitle := "Application"
  const PlatformTitle := "Platform"
  const VisualMetricsTitle := "Visual Metrics"

  /** The buffer counts entries of this many bytes. */
  const BytesPerEntry := 8
  const Unlimited := "Unlimited"
  const SecondsSuffix := " seconds"
  const Separator := ", "

  // ---------------------------------------------------------------------
  // Text the panel builds itself
  // ---------------------------------------------------------------------

  /** A labelled list, left out entirely when the list is empty. */
  function RowOfList(name: string, data: seq<string>): (r: Option<Row>)
    ensures r.None? <==> |data| == 0
    ensures r.Some? ==> r.value.heading == name + ":"
    ensures r.Some? ==> r.value.content.Items? && r.value.content.items == data
  {
    if |data| == 0 then None else Some(Row(name + ":", Items(data)))
  }

  /** The bytes the buffer holds, for a capacity counted in entries. */
  function CapacityBytes(capacity: int): (bytes: int)
    ensures bytes % BytesPerEntry == 0
    ensures bytes / BytesPerEntry == capacity
  {
    capacity * BytesPerEntry
  }

  /** The buffer duration: a number of seconds, or "Unlimited" for 0. */
  function BufferDurationText(duration: int): (s: string)
    ensures s == Unlimited <==> duration == 0
  {
    if duration != 0 then
      var s := IntToString(duration) + SecondsSuffix;
      assert s[0] != Unlimited[0];
      s
    else Unlimited
  }

  /** Reads a buffer duration text back; "Unlimited" stands for 0. */
  function DurationFromText(s: string): Option<int> {
    if s == Unlimited then Some(0)
    else if |s| > |SecondsSuffix| && s[|s| - |SecondsSuffix|..] == SecondsSuffix then
      ParseInt(s[..|s| - |SecondsSuffix|])
    else None
  }

  lemma BufferDurationRoundTrip(duration: int)
    ensures DurationFromText(BufferDurationText(duration)) == Some(duration)
  {
    if duration != 0 {
      var s := BufferDurationText(duration);
      assert s[..|s| - |SecondsSuffix|] == IntToString(duration);
      assert s[|s| - |SecondsSuffix|..] == SecondsSuffix;
      IntToStringRoundTrip(duration);
    }
  }

  datatype CoreKind = Physical | Logical

  function KindWord(kind: CoreKind): string {
    match kind
    case Physical => "physical"
    case Logical => "logical"
  }

  function CoreNoun(n: int): string {
    if n == 1 then "core" else "cores"
  }

  /** The words after the count in a clause: " physical core", " logical cores", ... */
  function ClauseWords(n: int, kind: CoreKind): string {
    " " + KindWord(kind) + " " + CoreNoun(n)
  }

  lemma CpuWordsHaveNoComma(n: int, kind: CoreKind)
    ensures forall k :: 0 <= k < |ClauseWords(n, kind)| ==> ClauseWords(n, kind)[k] != ','
  {
  }

  /** "N physical core(s)" or "N logical core(s)". */
  function CpuClause(n: int, kind: CoreKind): (s: string)
    ensures |s| > |IntToString(n)|
    ensures s[|s| - 1] == 's' <==> n != 1
    ensures forall k :: 0 <= k < |s| ==> s[k] != ','
  {
    var words := ClauseWords(n, kind);
    CpuWordsHaveNoComma(n, kind);
    IntToString(n) + words
  }

  /** The clauses of the CPU row, physical first; a count of 0 or none gives no clause. */
  function CpuClauses(physicalCPUs: Option<int>, logicalCPUs: Option<int>): seq<string> {
    (if TruthyInt(physicalCPUs) then [CpuClause(physicalCPUs.value, Physical)] else [])
    + (if TruthyInt(logicalCPUs) then [CpuClause(logicalCPUs.value, Logical)] else [])
  }

  function Join(parts: seq<string>, sep: string): string {
    if |parts| == 0 then ""
    else if |parts| == 1 then parts[0]
    else parts[0] + sep + Join(parts[1..], sep)
  }

  predicate ContainsSeparator(t: string) {
    exists i :: 0 <= i < |t| - 1 && t[i] == ',' && t[i + 1] == ' '
  }

  /** The CPU row's text, absent when neither count is truthy. */
  function CpuText(physicalCPUs: Option<int>, logicalCPUs: Option<int>): (r: Option<string>)
    ensures r.Some? <==> TruthyInt(physicalCPUs) || TruthyInt(logicalCPUs)
    ensures r.Some? ==> r.value == Join(CpuClauses(physicalCPUs, logicalCPUs), Separator)
  {
    if TruthyInt(physicalCPUs) || TruthyInt(logicalCPUs) then
      var physical := if TruthyInt(physicalCPUs) then CpuClause(physicalCPUs.value, Physical) else "";
      var logical := if TruthyInt(logicalCPUs) then CpuClause(logicalCPUs.value, Logical) else "";
      var sep := if TruthyInt(physicalCPUs) && TruthyInt(logicalCPUs) then Separator else "";
      Some(physical + sep + logical)
    else None
  }

  /** The ", " separator is shown exactly when both counts are. */
  lemma CpuSeparatorIffBoth(physicalCPUs: Option<int>, logicalCPUs: Option<int>)
    requires CpuText(physicalCPUs, logicalCPUs).Some?
    ensures ContainsSeparator(CpuText(physicalCPUs, logicalCPUs).value)
      <==> TruthyInt(physicalCPUs) && TruthyInt(logicalCPUs)
  {
    var t := CpuText(physicalCPUs, logicalCPUs).value;
    if TruthyInt(physicalCPUs) && TruthyInt(logicalCPUs) {
      var p := CpuClause(physicalCPUs.value, Physical);
      assert t[|p|] == ',' && t[|p| + 1] == ' ';
    } else {
      assert forall k :: 0 <= k < |t| ==> t[k] != ',';
    }
  }

  /** The prefix of `s` before the first `c`. */
  function TakeUntil(s: string, c: char): (p: string)
    ensures |p| <= |s| && p == s[..|p|]
  {
    if |s| == 0 || s[0] == c then "" else [s[0]] + TakeUntil(s[1..], c)
  }

  lemma {:induction false} TakeUntilAppend(a: string, b: string, c: char)
    requires forall k :: 0 <= k < |a| ==> a[k] != c
    requires |b| > 0 && b[0] == c
    ensures TakeUntil(a + b, c) == a
    decreases |a|
  {
    if |a| > 0 {
      assert (a + b)[1..] == a[1..] + b;
      TakeUntilAppend(a[1..], b, c);
    } else {
      assert a + b == b;
    }
  }

  /**
   * Reads a CPU clause back: the count up to the first space, then
   * " physical " or " logical ", then "core" for a count of 1 and "cores"
   * for any other count. Anything else is `None`.
   */
  function ReadCpuClause(s: string): Option<(int, CoreKind)> {
    var digits := TakeUntil(s, ' ');
    match ParseInt(digits)
    case None => None
    case Some(n) =>
      var rest := s[|digits|..];
      if rest == ClauseWords(n, Physical) then Some((n, Physical))
      else if rest == ClauseWords(n, Logical) then Some((n, Logical))
      else None
  }

  /** A CPU clause reads back as its count and its kind, with the noun agreeing with the count. */
  lemma CpuClauseRoundTrip(n: int, kind: CoreKind)
    ensures ReadCpuClause(CpuClause(n, kind)) == Some((n, kind))
  {
    var words := ClauseWords(n, kind);
    assert CpuClause(n, kind) == IntToString(n) + words;
    TakeUntilAppend(IntToString(n), words, ' ');
    IntToStringRoundTrip(n);
    assert (IntToString(n) + words)[|IntToString(n)|..] == words;
    assert ClauseWords(n, Physical)[1] != ClauseWords(n, Logical)[1];
  }

  /** Only the clause for a count and a kind reads back as that count and kind. */
  lemma ReadCpuClauseExact(s: string, n: int, kind: CoreKind)
    requires ReadCpuClause(s) == Some((n, kind))
    ensures s == CpuClause(n, kind)
  {
    var digits := TakeUntil(s, ' ');
    ParsedTextIsCanonical(digits, n);
    assert s == digits + s[|digits|..];
  }

  /** The Build ID is always shown as itself; it links to the source when a URL is known. */
  function BuildIdContent(buildId: string, sourceURL: Option<string>): (c: Content)
    ensures c.Text? || c.Link?
    ensures VisibleText(c) == Some(buildId)
    ensures c.Link? <==> TruthyString(sourceURL)
    ensures c.Link? ==> c.href == sourceURL.value
  {
    if TruthyString(sourceURL) then Link(sourceURL.value, buildId) else Text(buildId)
  }

  function BuildTypeText(debug: bool): (s: string)
    ensures s == "Debug" <==> debug
    ensures s == "Opt" <==> !debug
  {
    if debug then "Debug" else "Opt"
  }

  // ---------------------------------------------------------------------
  // Rows and sections
  // ---------------------------------------------------------------------

  function ListRow(name: string, data: seq<string>): seq<Row> {
    match RowOfList(name, data)
    case Some(row) => [row]
    case None => []
  }

  function ConfigurationRows(config: RecordingConfig, fmt: Formatters): seq<Row> {
    [Row(CapacityHeading, Text(fmt.formatBytes(CapacityBytes(config.capacity), 0))),
     Row(DurationHeading, Text(BufferDurationText(config.duration)))]
    + ListRow(FeaturesName, config.features)
    + ListRow(ThreadsName, config.threads)
  }

  function StartTimeRows(meta: Meta, fmt: Formatters): seq<Row> {
    if TruthyReal(meta.startTime) then [Row(StartTimeHeading, Text(fmt.formatDate(meta.startTime.value)))] else []
  }

  function IntervalRows(meta: Meta, fmt: Formatters): seq<Row> {
    if TruthyReal(meta.interval) then [Row(IntervalHeading, Text(fmt.formatTimestamp(meta.interval.value, 4, 1)))] else []
  }

  function VersionRows(meta: Meta): seq<Row> {
    if TruthyInt(meta.preprocessedProfileVersion) then [Row(VersionHeading, Number(meta.preprocessedProfileVersion.value as real))] else []
  }

  /** Start time, sampling interval and processed format version. */
  function RecordingRows(meta: Meta, fmt: Formatters): seq<Row> {
    StartTimeRows(meta, fmt) + IntervalRows(meta, fmt) + VersionRows(meta)
  }

  function BufferRows(meta: Meta, fmt: Formatters): seq<Row> {
    if meta.configuration.Some? then ConfigurationRows(meta.configuration.value, fmt) else []
  }

  /** The recording rows, then the symbolication rows, in one untitled section. */
  function GeneralRows(meta: Meta, status: Status, fmt: Formatters): seq<Row> {
    RecordingRows(meta, fmt) + BufferRows(meta, fmt) + RenderSymbolication(status, meta.symbolicated)
  }

  function ProductRows(meta: Meta, fmt: Formatters): seq<Row> {
    if TruthyString(meta.product) then [Row(ProductHeading, Text(fmt.formatProductAndVersion(meta)))] else []
  }

  function ChannelRows(meta: Meta): seq<Row> {
    if TruthyString(meta.updateChannel) then [Row(ChannelHeading, Text(meta.updateChannel.value))] else []
  }

  function BuildIdRows(meta: Meta): seq<Row> {
    if TruthyString(meta.appBuildID) then [Row(BuildIdHeading, BuildIdContent(meta.appBuildID.value, meta.sourceURL))] else []
  }

  /** Shown whenever `debug` is defined, `false` included. */
  function BuildTypeRows(meta: Meta): seq<Row> {
    if meta.debug.Some? then [Row(BuildTypeHeading, Text(BuildTypeText(meta.debug.value)))] else []
  }

  function ExtensionRows(meta: Meta): seq<Row> {
    if meta.extensions.Some? then ListRow(ExtensionsName, meta.extensions.value) else []
  }

  /** Product, channel, build identity and extensions. */
  function ApplicationRows(meta: Meta, fmt: Formatters): seq<Row> {
    ProductRows(meta, fmt) + ChannelRows(meta) + BuildIdRows(meta) + BuildTypeRows(meta) + ExtensionRows(meta)
  }

  /** The OS row is shown when the platform formatter yields a non-empty string. */
  function OsRows(meta: Meta, fmt: Formatters): seq<Row> {
    var platform := fmt.formatPlatform(meta);
    if platform != "" then [Row(OsHeading, Text(platform))] else []
  }

  function AbiRows(meta: Meta): seq<Row> {
    if TruthyString(meta.abi) then [Row(AbiHeading, Text(meta.abi.value))] else []
  }

  function CpuRows(meta: Meta): seq<Row> {
    match CpuText(meta.physicalCPUs, meta.logicalCPUs)
    case Some(text) => [Row(CpuHeading, Text(text))]
    case None => []
  }

  /** Operating system, ABI and CPU counts. */
  function PlatformRows(meta: Meta, fmt: Formatters): seq<Row> {
    OsRows(meta, fmt) + AbiRows(meta) + CpuRows(meta)
  }

  function VisualMetricRows(metrics: VisualMetrics): seq<Row> {
    [Row(SpeedIndexHeading, Number(metrics.speedIndex)),
     Row(PerceptualHeading, Number(metrics.perceptualSpeedIndex)),
     Row(ContentfulHeading, Number(metrics.contentfulSpeedIndex))]
  }

  /**
   * The whole panel: the general section, Application, Platform, then Visual
   * Metrics and the overhead statistics view when the profile has them.
   */
  function Render<O>(profile: Profile<O>, status: Status, fmt: Formatters): (sections: seq<Section<O>>)
    ensures |sections| == 3 + (if profile.meta.visualMetrics.Some? then 1 else 0)
                            + (if profile.profilerOverhead.Some? then 1 else 0)
    ensures sections[0] == Section(None, GeneralRows(profile.meta, status, fmt))
    ensures sections[1] == Section(Some(ApplicationTitle), ApplicationRows(profile.meta, fmt))
    ensures sections[2] == Section(Some(PlatformTitle), PlatformRows(profile.meta, fmt))
    ensures profile.meta.visualMetrics.Some? ==>
      sections[3] == Section(Some(VisualMetricsTitle), VisualMetricRows(profile.meta.visualMetrics.value))
    ensures profile.profilerOverhead.Some? ==>
      sections[|sections| - 1] == OverheadStatistics(profile.profilerOverhead.value)
  {
    var meta := profile.meta;
    var general := Section(None, GeneralRows(meta, status, fmt));
    var application := Section(Some(ApplicationTitle), ApplicationRows(meta, fmt));
    var platform := Section(Some(PlatformTitle), PlatformRows(meta, fmt));
    match (meta.visualMetrics, profile.profilerOverhead)
    case (None, None) => [general, application, platform]
    case (Some(metrics), None) =>
      [general, application, platform, Section(Some(VisualMetricsTitle), VisualMetricRows(metrics))]
    case (None, Some(overhead)) =>
      [general, application, platform, OverheadStatistics(overhead)]
    case (Some(metrics), Some(overhead)) =>
      [general, application, platform, Section(Some(VisualMetricsTitle), VisualMetricRows(metrics)), OverheadStatistics(overhead)]
  }

  /** Only the last section can be the overhead statistics view, and it is when the profile has overhead data. */
  lemma OverheadOnlyLast<O>(profile: Profile<O>, status: Status, fmt: Formatters)
    ensures var sections := Render(profile, status, fmt);
      forall i :: 0 <= i < |sections| ==>
        (sections[i].OverheadStatistics? <==> profile.profilerOverhead.Some? && i == |sections| - 1)
  {
    var sections := Render(profile, status, fmt);
    forall i | 0 <= i < |sections|
      ensures sections[i].OverheadStatistics? <==> profile.profilerOverhead.Some? && i == |sections| - 1
    {
      if i == 3 && profile.meta.visualMetrics.Some? {
        assert sections[3].Section?;
      }
    }
  }

  /** The panel for a status tag from the store: an unknown tag is an error, never a default. */
  function RenderTagged<O>(profile: Profile<O>, tag: string, fmt: Formatters): (r: Result<seq<Section<O>>, string>)
    ensures r.Failure? <==> tag != "DONE" && tag != "SYMBOLICATING"
    ensures r.Failure? ==> r.error == UnhandledStatus
    ensures tag == "DONE" ==> r == Success(Render(profile, Done, fmt))
    ensures tag == "SYMBOLICATING" ==> r == Success(Render(profile, Symbolicating, fmt))
  {
    match ParseStatus(tag)
    case Success(status) => Success(Render(profile, status, fmt))
    case Failure(e) => Failure(e)
  }

  // ---------------------------------------------------------------------
  // Reference: the presence policy and the fixed row order
  // ---------------------------------------------------------------------

  /** The rows the panel can show, one per heading. */
  datatype Field =
    | StartTime | Interval | Version | Capacity | Duration | Features | Threads | Symbols | SymbolicateButton
    | Product | Channel | BuildId | BuildType | Extensions
    | Os | Abi | Cpu

  function HeadingOf(f: Field): string {
    match f
    case StartTime => StartTimeHeading
    case Interval => IntervalHeading
    case Version => VersionHeading
    case Capacity => CapacityHeading
    case Duration => DurationHeading
    case Features => FeaturesName + ":"
    case Threads => ThreadsName + ":"
    case Symbols => SymbolsHeading
    case SymbolicateButton => ButtonHeading
    case Product => ProductHeading
    case Channel => ChannelHeading
    case BuildId => BuildIdHeading
    case BuildType => BuildTypeHeading
    case Extensions => ExtensionsName + ":"
    case Os => OsHeading
    case Abi => AbiHeading
    case Cpu => CpuHeading
  }

  const GeneralOrder := [StartTime, Interval, Version, Capacity, Duration, Features, Threads, Symbols, SymbolicateButton]
  const ApplicationOrder := [Product, Channel, BuildId, BuildType, Extensions]
  const PlatformOrder := [Os, Abi, Cpu]

  /**
   * Whether a row is shown: truthiness for most fields, definedness for
   * `debug`, non-emptiness for lists, and the buffer rows only with a
   * recording configuration.
   */
  ghost predicate Shown(meta: Meta, status: Status, fmt: Formatters, f: Field) {
    var config := meta.configuration;
    match f
    case StartTime => TruthyReal(meta.startTime)
    case Interval => TruthyReal(meta.interval)
    case Version => TruthyInt(meta.preprocessedProfileVersion)
    case Capacity => config.Some?
    case Duration => config.Some?
    case Features => config.Some? && |config.value.features| > 0
    case Threads => config.Some? && |config.value.threads| > 0
    case Symbols => true
    case SymbolicateButton => status == Done
    case Product => TruthyString(meta.product)
    case Channel => TruthyString(meta.updateChannel)
    case BuildId => TruthyString(meta.appBuildID)
    case BuildType => meta.debug.Some?
    case Extensions => meta.extensions.Some? && |meta.extensions.value| > 0
    case Os => fmt.formatPlatform(meta) != ""
    case Abi => TruthyString(meta.abi)
    case Cpu => TruthyInt(meta.physicalCPUs) || TruthyInt(meta.logicalCPUs)
  }

  /** The heading of `f` if it is shown, else nothing. */
  ghost function Pick(meta: Meta, status: Status, fmt: Formatters, f: Field): seq<string> {
    if Shown(meta, status, fmt, f) then [HeadingOf(f)] else []
  }

  /** The headings of the fields of `order` that are shown, in that order. */
  ghost function Select(order: seq<Field>, meta: Meta, status: Status, fmt: Formatters): seq<string> {
    if order == [] then [] else Pick(meta, status, fmt, order[0]) + Select(order[1..], meta, status, fmt)
  }

  lemma SelectTwo(a: Field, b: Field, meta: Meta, status: Status, fmt: Formatters)
    ensures Select([a, b], meta, status, fmt) == Pick(meta, status, fmt, a) + Pick(meta, status, fmt, b)
  {
    assert [b][1..] == [];
    assert Select([b], meta, status, fmt) == Pick(meta, status, fmt, b);
    assert [a, b][1..] == [b];
  }

  lemma SelectThree(a: Field, b: Field, c: Field, meta: Meta, status: Status, fmt: Formatters)
    ensures Select([a, b, c], meta, status, fmt)
      == Pick(meta, status, fmt, a) + Pick(meta, status, fmt, b) + Pick(meta, status, fmt, c)
  {
    assert [c][1..] == [];
    assert Select([c], meta, status, fmt) == Pick(meta, status, fmt, c);
    assert [b, c][1..] == [c];
    assert Select([b, c], meta, status, fmt) == Pick(meta, status, fmt, b) + Pick(meta, status, fmt, c);
    assert [a, b, c][1..] == [b, c];
  }

  lemma {:induction false} SelectAppend(a: seq<Field>, b: seq<Field>, meta: Meta, status: Status, fmt: Formatters)
    ensures Select(a + b, meta, status, fmt) == Select(a, meta, status, fmt) + Select(b, meta, status, fmt)
    decreases |a|
  {
    if a != [] {
      assert (a + b)[1..] == a[1..] + b;
      SelectAppend(a[1..], b, meta, status, fmt);
    } else {
      assert a + b == b;
    }
  }

  lemma SelectOne(f: Field, meta: Meta, status: Status, fmt: Formatters)
    ensures Select([f], meta, status, fmt) == if Shown(meta, status, fmt, f) then [HeadingOf(f)] else []
  {
    assert [f][1..] == [];
  }

  lemma RecordingPicks(meta: Meta, fmt: Formatters, status: Status)
    ensures Pick(meta, status, fmt, StartTime) == Headings(StartTimeRows(meta, fmt))
    ensures Pick(meta, status, fmt, Interval) == Headings(IntervalRows(meta, fmt))
    ensures Pick(meta, status, fmt, Version) == Headings(VersionRows(meta))
  {
    assert Pick(meta, status, fmt, StartTime) == Headings(StartTimeRows(meta, fmt)) by {
      HeadingsOfOne(StartTimeRows(meta, fmt));
    }
    assert Pick(meta, status, fmt, Interval) == Headings(IntervalRows(meta, fmt)) by {
      HeadingsOfOne(IntervalRows(meta, fmt));
    }
    assert Pick(meta, status, fmt, Version) == Headings(VersionRows(meta)) by {
      HeadingsOfOne(VersionRows(meta));
    }
  }

  lemma RecordingHeadings(meta: Meta, fmt: Formatters, status: Status)
    ensures Headings(RecordingRows(meta, fmt)) == Select([StartTime, Interval, Version], meta, status, fmt)
  {
    SelectThree(StartTime, Interval, Version, meta, status, fmt);
    RecordingPicks(meta, fmt, status);
    HeadingsThree(StartTimeRows(meta, fmt), IntervalRows(meta, fmt), VersionRows(meta));
  }

  lemma ListRowHeadings(name: string, data: seq<string>)
    ensures Headings(ListRow(name, data)) == if |data| > 0 then [name + ":"] else []
  {
    HeadingsOfOne(ListRow(name, data));
  }

  lemma ConfigurationHeadings(config: RecordingConfig, fmt: Formatters)
    ensures Headings(ConfigurationRows(config, fmt))
      == [CapacityHeading, DurationHeading]
         + (if |config.features| > 0 then [FeaturesName + ":"] else [])
         + (if |config.threads| > 0 then [ThreadsName + ":"] else [])
  {
    var fixed := [Row(CapacityHeading, Text(fmt.formatBytes(CapacityBytes(config.capacity), 0))),
                  Row(DurationHeading, Text(BufferDurationText(config.duration)))];
    assert Headings(fixed) == [CapacityHeading, DurationHeading];
    ListRowHeadings(FeaturesName, config.features);
    ListRowHeadings(ThreadsName, config.threads);
    HeadingsAppend(fixed, ListRow(FeaturesName, config.features));
    HeadingsAppend(fixed + ListRow(FeaturesName, config.features), ListRow(ThreadsName, config.threads));
  }

  lemma BufferSelect(meta: Meta, fmt: Formatters, status: Status)
    ensures Select([Capacity, Duration, Features, Threads], meta, status, fmt)
      == (if Shown(meta, status, fmt, Capacity) then [CapacityHeading] else [])
         + (if Shown(meta, status, fmt, Duration) then [DurationHeading] else [])
         + (if Shown(meta, status, fmt, Features) then [FeaturesName + ":"] else [])
         + (if Shown(meta, status, fmt, Threads) then [ThreadsName + ":"] else [])
  {
    assert [Capacity, Duration, Features, Threads] == [Capacity, Duration] + [Features, Threads];
    SelectAppend([Capacity, Duration], [Features, Threads], meta, status, fmt);
    SelectTwo(Capacity, Duration, meta, status, fmt);
    SelectTwo(Features, Threads, meta, status, fmt);
  }

  lemma BufferHeadings(meta: Meta, fmt: Formatters, status: Status)
    ensures Headings(BufferRows(meta, fmt)) == Select([Capacity, Duration, Features, Threads], meta, status, fmt)
  {
    BufferSelect(meta, fmt, status);
    if meta.configuration.Some? {
      ConfigurationHeadings(meta.configuration.value, fmt);
    }
  }

  lemma SymbolicationHeadings(meta: Meta, fmt: Formatters, status: Status)
    ensures Headings(RenderSymbolication(status, meta.symbolicated)) == Select([Symbols, SymbolicateButton], meta, status, fmt)
  {
    SelectAppend([Symbols], [SymbolicateButton], meta, status, fmt);
    SelectOne(Symbols, meta, status, fmt);
    SelectOne(SymbolicateButton, meta, status, fmt);
  }

  /**
   * The general section shows exactly the rows the presence policy selects,
   * in the fixed order: recording rows, buffer rows and lists, then symbols.
   */
  lemma GeneralHeadings(meta: Meta, status: Status, fmt: Formatters)
    ensures Headings(GeneralRows(meta, status, fmt)) == Select(GeneralOrder, meta, status, fmt)
  {
    RecordingHeadings(meta, fmt, status);
    BufferHeadings(meta, fmt, status);
    SymbolicationHeadings(meta, fmt, status);
    GeneralSelect(meta, status, fmt);
    HeadingsThree(RecordingRows(meta, fmt), BufferRows(meta, fmt), RenderSymbolication(status, meta.symbolicated));
  }

  lemma GeneralSelect(meta: Meta, status: Status, fmt: Formatters)
    ensures Select(GeneralOrder, meta, status, fmt)
      == Select([StartTime, Interval, Version], meta, status, fmt)
         + Select([Capacity, Duration, Features, Threads], meta, status, fmt)
         + Select([Symbols, SymbolicateButton], meta, status, fmt)
  {
    var recording := [StartTime, Interval, Version];
    var buffer := [Capacity, Duration, Features, Threads];
    var symbols := [Symbols, SymbolicateButton];
    assert GeneralOrder == recording + buffer + symbols;
    SelectAppend(recording, buffer, meta, status, fmt);
    SelectAppend(recording + buffer, symbols, meta, status, fmt);
  }

  lemma ApplicationRowHeadings(meta: Meta, fmt: Formatters)
    ensures Headings(ApplicationRows(meta, fmt))
      == (if TruthyString(meta.product) then [ProductHeading] else [])
         + (if TruthyString(meta.updateChannel) then [ChannelHeading] else [])
         + (if TruthyString(meta.appBuildID) then [BuildIdHeading] else [])
         + (if meta.debug.Some? then [BuildTypeHeading] else [])
         + (if meta.extensions.Some? && |meta.extensions.value| > 0 then [ExtensionsName + ":"] else [])
  {
    var product, channel, buildId, buildType, extensions :=
      ProductRows(meta, fmt), ChannelRows(meta), BuildIdRows(meta), BuildTypeRows(meta), ExtensionRows(meta);
    if meta.extensions.Some? {
      ListRowHeadings(ExtensionsName, meta.extensions.value);
    }
    assert Headings(product) == (if TruthyString(meta.product) then [ProductHeading] else []);
    assert Headings(channel) == (if TruthyString(meta.updateChannel) then [ChannelHeading] else []);
    assert Headings(buildId) == (if TruthyString(meta.appBuildID) then [BuildIdHeading] else []);
    assert Headings(buildType) == (if meta.debug.Some? then [BuildTypeHeading] else []);
    HeadingsAppend(product, channel);
    HeadingsAppend(product + channel, buildId);
    HeadingsAppend(product + channel + buildId, buildType);
    HeadingsAppend(product + channel + buildId + buildType, extensions);
  }

  lemma ApplicationSelect(meta: Meta, status: Status, fmt: Formatters)
    ensures Select(ApplicationOrder, meta, status, fmt)
      == Pick(meta, status, fmt, Product) + Pick(meta, status, fmt, Channel) + Pick(meta, status, fmt, BuildId)
         + Pick(meta, status, fmt, BuildType) + Pick(meta, status, fmt, Extensions)
  {
    assert ApplicationOrder == [Product, Channel, BuildId] + [BuildType, Extensions];
    SelectThree(Product, Channel, BuildId, meta, status, fmt);
    SelectTwo(BuildType, Extensions, meta, status, fmt);
    SelectAppend([Product, Channel, BuildId], [BuildType, Extensions], meta, status, fmt);
  }

  /** The Application section shows exactly the selected rows, in the fixed order. */
  lemma ApplicationHeadings(meta: Meta, fmt: Formatters, status: Status)
    ensures Headings(ApplicationRows(meta, fmt)) == Select(ApplicationOrder, meta, status, fmt)
  {
    ApplicationRowHeadings(meta, fmt);
    ApplicationSelect(meta, status, fmt);
    assert Pick(meta, status, fmt, Product) == (if TruthyString(meta.product) then [ProductHeading] else []);
    assert Pick(meta, status, fmt, Channel) == (if TruthyString(meta.updateChannel) then [ChannelHeading] else []);
    assert Pick(meta, status, fmt, BuildId) == (if TruthyString(meta.appBuildID) then [BuildIdHeading] else []);
    assert Pick(meta, status, fmt, BuildType) == (if meta.debug.Some? then [BuildTypeHeading] else []);
    assert Pick(meta, status, fmt, Extensions)
      == (if meta.extensions.Some? && |meta.extensions.value| > 0 then [ExtensionsName + ":"] else []);
  }

  lemma PlatformPieceHeadings(meta: Meta, fmt: Formatters)
    ensures Headings(OsRows(meta, fmt)) == if fmt.formatPlatform(meta) != "" then [OsHeading] else []
    ensures Headings(AbiRows(meta)) == if TruthyString(meta.abi) then [AbiHeading] else []
    ensures Headings(CpuRows(meta)) == if TruthyInt(meta.physicalCPUs) || TruthyInt(meta.logicalCPUs) then [CpuHeading] else []
  {
    HeadingsOfOne(OsRows(meta, fmt));
    HeadingsOfOne(AbiRows(meta));
    HeadingsOfOne(CpuRows(meta));
  }

  /** The Platform section shows exactly the selected rows: OS, ABI, then CPU. */
  lemma PlatformHeadings(meta: Meta, fmt: Formatters, status: Status)
    ensures Headings(PlatformRows(meta, fmt)) == Select(PlatformOrder, meta, status, fmt)
  {
    SelectThree(Os, Abi, Cpu, meta, status, fmt);
    PlatformPicks(meta, fmt, status);
    HeadingsThree(OsRows(meta, fmt), AbiRows(meta), CpuRows(meta));
  }

  lemma PlatformPicks(meta: Meta, fmt: Formatters, status: Status)
    ensures Pick(meta, status, fmt, Os) == Headings(OsRows(meta, fmt))
    ensures Pick(meta, status, fmt, Abi) == Headings(AbiRows(meta))
    ensures Pick(meta, status, fmt, Cpu) == Headings(CpuRows(meta))
  {
    assert Pick(meta, status, fmt, Os) == Headings(OsRows(meta, fmt)) by {
      HeadingsOfOne(OsRows(meta, fmt));
    }
    assert Pick(meta, status, fmt, Abi) == Headings(AbiRows(meta)) by {
      HeadingsOfOne(AbiRows(meta));
    }
    assert Pick(meta, status, fmt, Cpu) == Headings(CpuRows(meta)) by {
      HeadingsOfOne(CpuRows(meta));
    }
  }


  // ---------------------------------------------------------------------
  // What each shown row displays
  // ---------------------------------------------------------------------

  lemma RecordingContents(meta: Meta, fmt: Formatters)
    ensures TruthyReal(meta.startTime) ==>
      Find(RecordingRows(meta, fmt), StartTimeHeading) == Some(Text(fmt.formatDate(meta.startTime.value)))
    ensures TruthyReal(meta.interval) ==>
      Find(RecordingRows(meta, fmt), IntervalHeading) == Some(Text(fmt.formatTimestamp(meta.interval.value, 4, 1)))
    ensures TruthyInt(meta.preprocessedProfileVersion) ==>
      Find(RecordingRows(meta, fmt), VersionHeading) == Some(Number(meta.preprocessedProfileVersion.value as real))
  {
    var start, interval, version := StartTimeRows(meta, fmt), IntervalRows(meta, fmt), VersionRows(meta);
    HeadingsOfOne(start);
    HeadingsOfOne(interval);
    FindInThree(start, interval, version, StartTimeHeading);
    FindInThree(start, interval, version, IntervalHeading);
    FindInThree(start, interval, version, VersionHeading);
  }

  lemma ConfigurationContents(config: RecordingConfig, fmt: Formatters)
    ensures Find(ConfigurationRows(config, fmt), CapacityHeading) == Some(Text(fmt.formatBytes(config.capacity * 8, 0)))
    ensures Find(ConfigurationRows(config, fmt), DurationHeading) == Some(Text(BufferDurationText(config.duration)))
    ensures |config.features| > 0 ==>
      Find(ConfigurationRows(config, fmt), FeaturesName + ":") == Some(Items(config.features))
    ensures |config.threads| > 0 ==>
      Find(ConfigurationRows(config, fmt), ThreadsName + ":") == Some(Items(config.threads))
  {
    var fixed := [Row(CapacityHeading, Text(fmt.formatBytes(CapacityBytes(config.capacity), 0))),
                  Row(DurationHeading, Text(BufferDurationText(config.duration)))];
    var features := ListRow(FeaturesName, config.features);
    var threads := ListRow(ThreadsName, config.threads);
    assert Headings(fixed) == [CapacityHeading, DurationHeading];
    ListRowHeadings(FeaturesName, config.features);
    HeadingsAppend(fixed, features);
    FindAppend(fixed + features, threads, CapacityHeading);
    FindAppend(fixed + features, threads, DurationHeading);
    FindAppend(fixed + features, threads, FeaturesName + ":");
    FindAppend(fixed + features, threads, ThreadsName + ":");
    FindAppend(fixed, features, CapacityHeading);
    FindAppend(fixed, features, DurationHeading);
    FindAppend(fixed, features, FeaturesName + ":");
    FindAppend(fixed, features, ThreadsName + ":");
  }

  /** The recording part only ever shows the start time, interval and version headings. */
  lemma RecordingHeadingsAmong(meta: Meta, fmt: Formatters)
    ensures forall h :: h in Headings(RecordingRows(meta, fmt)) ==> h == StartTimeHeading || h == IntervalHeading || h == VersionHeading
  {
    HeadingsThree(StartTimeRows(meta, fmt), IntervalRows(meta, fmt), VersionRows(meta));
    HeadingsOfOne(StartTimeRows(meta, fmt));
    HeadingsOfOne(IntervalRows(meta, fmt));
    HeadingsOfOne(VersionRows(meta));
  }

  lemma BufferHeadingsAmong(meta: Meta, fmt: Formatters, status: Status)
    ensures forall h :: h in Headings(BufferRows(meta, fmt)) ==>
      h == CapacityHeading || h == DurationHeading || h == FeaturesName + ":" || h == ThreadsName + ":"
  {
    BufferHeadings(meta, fmt, status);
    BufferSelect(meta, fmt, status);
  }

  lemma GeneralRecordingContents(meta: Meta, status: Status, fmt: Formatters)
    ensures TruthyReal(meta.startTime) ==>
      Find(GeneralRows(meta, status, fmt), StartTimeHeading) == Some(Text(fmt.formatDate(meta.startTime.value)))
    ensures TruthyReal(meta.interval) ==>
      Find(GeneralRows(meta, status, fmt), IntervalHeading) == Some(Text(fmt.formatTimestamp(meta.interval.value, 4, 1)))
    ensures TruthyInt(meta.preprocessedProfileVersion) ==>
      Find(GeneralRows(meta, status, fmt), VersionHeading) == Some(Number(meta.preprocessedProfileVersion.value as real))
  {
    var recording := RecordingRows(meta, fmt);
    var rest := BufferRows(meta, fmt) + RenderSymbolication(status, meta.symbolicated);
    assert GeneralRows(meta, status, fmt) == recording + rest;
    RecordingContents(meta, fmt);
    FindAppend(recording, rest, StartTimeHeading);
    FindAppend(recording, rest, IntervalHeading);
    FindAppend(recording, rest, VersionHeading);
  }

  /** A buffer heading is found in the general section exactly where the buffer part shows it. */
  lemma GeneralFindsBufferRow(meta: Meta, status: Status, fmt: Formatters, h: string)
    requires h in Headings(BufferRows(meta, fmt))
    ensures Find(GeneralRows(meta, status, fmt), h) == Find(BufferRows(meta, fmt), h)
  {
    var recording := RecordingRows(meta, fmt);
    var buffer := BufferRows(meta, fmt);
    var symbols := RenderSymbolication(status, meta.symbolicated);
    RecordingHeadingsAmong(meta, fmt);
    BufferHeadingsAmong(meta, fmt, status);
    // The recording headings start with 'R', 'I' and 'P'; the buffer ones with 'B', 'F' and 'T'.
    assert StartTimeHeading[0] == 'R' && IntervalHeading[0] == 'I' && VersionHeading[0] == 'P';
    assert h[0] in {'B', 'F', 'T'};
    assert h !in Headings(recording);
    HeadingsAppend(recording, buffer);
    FindAppend(recording, buffer, h);
    FindAppend(recording + buffer, symbols, h);
  }

  lemma GeneralBufferContents(meta: Meta, status: Status, fmt: Formatters)
    requires meta.configuration.Some?
    ensures Find(GeneralRows(meta, status, fmt), CapacityHeading) == Some(Text(fmt.formatBytes(meta.configuration.value.capacity * 8, 0)))
    ensures Find(GeneralRows(meta, status, fmt), DurationHeading) == Some(Text(BufferDurationText(meta.configuration.value.duration)))
    ensures |meta.configuration.value.features| > 0 ==>
      Find(GeneralRows(meta, status, fmt), FeaturesName + ":") == Some(Items(meta.configuration.value.features))
    ensures |meta.configuration.value.threads| > 0 ==>
      Find(GeneralRows(meta, status, fmt), ThreadsName + ":") == Some(Items(meta.configuration.value.threads))
  {
    var config := meta.configuration.value;
    ConfigurationContents(config, fmt);
    GeneralFindsBufferRow(meta, status, fmt, CapacityHeading);
    GeneralFindsBufferRow(meta, status, fmt, DurationHeading);
    if |config.features| > 0 {
      GeneralFindsBufferRow(meta, status, fmt, FeaturesName + ":");
    }
    if |config.threads| > 0 {
      GeneralFindsBufferRow(meta, status, fmt, ThreadsName + ":");
    }
  }

  lemma GeneralSymbolsContents(meta: Meta, status: Status, fmt: Formatters)
    ensures Find(GeneralRows(meta, status, fmt), SymbolsHeading) == Some(Text(StatusText(status, meta.symbolicated)))
    ensures status == Done ==>
      Find(GeneralRows(meta, status, fmt), ButtonHeading) == Some(Button(ButtonCaption(meta.symbolicated)))
  {
    var front := RecordingRows(meta, fmt) + BufferRows(meta, fmt);
    var symbols := RenderSymbolication(status, meta.symbolicated);
    RecordingHeadingsAmong(meta, fmt);
    BufferHeadingsAmong(meta, fmt, status);
    HeadingsAppend(RecordingRows(meta, fmt), BufferRows(meta, fmt));
    assert SymbolsHeading !in Headings(front);
    assert ButtonHeading !in Headings(front);
    FindAppend(front, symbols, SymbolsHeading);
    FindAppend(front, symbols, ButtonHeading);
    if status == Done {
      assert symbols == [Row(SymbolsHeading, Text(StatusText(status, meta.symbolicated))), Row(ButtonHeading, Button(ButtonCaption(meta.symbolicated)))];
      assert symbols[1..] == [Row(ButtonHeading, Button(ButtonCaption(meta.symbolicated)))];
    }
  }

  lemma ApplicationPieceHeadings(meta: Meta, fmt: Formatters)
    ensures Headings(ProductRows(meta, fmt)) == if TruthyString(meta.product) then [ProductHeading] else []
    ensures Headings(ChannelRows(meta)) == if TruthyString(meta.updateChannel) then [ChannelHeading] else []
    ensures Headings(BuildIdRows(meta)) == if TruthyString(meta.appBuildID) then [BuildIdHeading] else []
    ensures Headings(BuildTypeRows(meta)) == if meta.debug.Some? then [BuildTypeHeading] else []
    ensures Headings(ExtensionRows(meta))
      == if meta.extensions.Some? && |meta.extensions.value| > 0 then [ExtensionsName + ":"] else []
  {
    if meta.extensions.Some? {
      ListRowHeadings(ExtensionsName, meta.extensions.value);
    }
  }

  lemma ProductContents(meta: Meta, fmt: Formatters)
    ensures TruthyString(meta.product) ==>
      Find(ApplicationRows(meta, fmt), ProductHeading) == Some(Text(fmt.formatProductAndVersion(meta)))
  {
    ApplicationPieceHeadings(meta, fmt);
    FindInFive(ProductRows(meta, fmt), ChannelRows(meta), BuildIdRows(meta), BuildTypeRows(meta), ExtensionRows(meta), ProductHeading);
  }

  lemma ChannelContents(meta: Meta, fmt: Formatters)
    ensures TruthyString(meta.updateChannel) ==>
      Find(ApplicationRows(meta, fmt), ChannelHeading) == Some(Text(meta.updateChannel.value))
  {
    ApplicationPieceHeadings(meta, fmt);
    FindInFive(ProductRows(meta, fmt), ChannelRows(meta), BuildIdRows(meta), BuildTypeRows(meta), ExtensionRows(meta), ChannelHeading);
  }

  /** The Build ID row always reads as the build ID; it is a link to the source URL exactly when one is known. */
  lemma BuildIdContents(meta: Meta, fmt: Formatters)
    ensures TruthyString(meta.appBuildID) ==>
      && Find(ApplicationRows(meta, fmt), BuildIdHeading).Some?
      && var c := Find(ApplicationRows(meta, fmt), BuildIdHeading).value;
      && VisibleText(c) == Some(meta.appBuildID.value)
      && (c.Link? <==> TruthyString(meta.sourceURL))
      && (c.Link? ==> c.href == meta.sourceURL.value)
  {
    ApplicationPieceHeadings(meta, fmt);
    FindInFive(ProductRows(meta, fmt), ChannelRows(meta), BuildIdRows(meta), BuildTypeRows(meta), ExtensionRows(meta), BuildIdHeading);
  }

  /** A defined `debug`, `false` included, shows "Debug" or "Opt". */
  lemma BuildTypeContents(meta: Meta, fmt: Formatters)
    ensures meta.debug.Some? ==>
      Find(ApplicationRows(meta, fmt), BuildTypeHeading) == Some(Text(BuildTypeText(meta.debug.value)))
  {
    ApplicationPieceHeadings(meta, fmt);
    FindInFive(ProductRows(meta, fmt), ChannelRows(meta), BuildIdRows(meta), BuildTypeRows(meta), ExtensionRows(meta), BuildTypeHeading);
  }

  lemma ExtensionsContents(meta: Meta, fmt: Formatters)
    ensures meta.extensions.Some? && |meta.extensions.value| > 0 ==>
      Find(ApplicationRows(meta, fmt), ExtensionsName + ":") == Some(Items(meta.extensions.value))
  {
    var h := ExtensionsName + ":";
    assert h == "Extensions:";
    ApplicationPieceHeadings(meta, fmt);
    FindInFive(ProductRows(meta, fmt), ChannelRows(meta), BuildIdRows(meta), BuildTypeRows(meta), ExtensionRows(meta), h);
  }

  /**
   * The Platform section shows the formatted platform, the ABI, and the CPU
   * counts as "N physical core(s)" and "N logical core(s)" joined by ", ".
   */
  lemma PlatformContents(meta: Meta, fmt: Formatters)
    ensures fmt.formatPlatform(meta) != "" ==>
      Find(PlatformRows(meta, fmt), OsHeading) == Some(Text(fmt.formatPlatform(meta)))
    ensures TruthyString(meta.abi) ==>
      Find(PlatformRows(meta, fmt), AbiHeading) == Some(Text(meta.abi.value))
    ensures TruthyInt(meta.physicalCPUs) || TruthyInt(meta.logicalCPUs) ==>
      Find(PlatformRows(meta, fmt), CpuHeading) == Some(Text(Join(CpuClauses(meta.physicalCPUs, meta.logicalCPUs), Separator)))
  {
    PlatformPieceHeadings(meta, fmt);
    FindInThree(OsRows(meta, fmt), AbiRows(meta), CpuRows(meta), OsHeading);
    FindInThree(OsRows(meta, fmt), AbiRows(meta), CpuRows(meta), AbiHeading);
    FindInThree(OsRows(meta, fmt), AbiRows(meta), CpuRows(meta), CpuHeading);
  }

  /** Visual Metrics, when present, shows exactly three rows in a fixed order. */
  lemma VisualMetricsContents(metrics: VisualMetrics)
    ensures Headings(VisualMetricRows(metrics)) == [SpeedIndexHeading, PerceptualHeading, ContentfulHeading]
    ensures Find(VisualMetricRows(metrics), SpeedIndexHeading) == Some(Number(metrics.speedIndex))
    ensures Find(VisualMetricRows(metrics), PerceptualHeading) == Some(Number(metrics.perceptualSpeedIndex))
    ensures Find(VisualMetricRows(metrics), ContentfulHeading) == Some(Number(metrics.contentfulSpeedIndex))
  {
    var rows := VisualMetricRows(metrics);
    assert rows[1..][1..][1..] == [];
    assert Headings(rows[1..][1..]) == [ContentfulHeading];
    assert Headings(rows[1..]) == [PerceptualHeading, ContentfulHeading];
    assert ContentfulHeading[0] != SpeedIndexHeading[0] && ContentfulHeading[0] != PerceptualHeading[0];
    assert Find(rows[1..][1..], ContentfulHeading) == Some(Number(metrics.contentfulSpeedIndex));
    assert Find(rows[1..], ContentfulHeading) == Find(rows[1..][1..], ContentfulHeading);
  }

  /**
   * The rendered panel: each of the three fixed sections shows exactly the
   * rows the presence policy selects, in the fixed order, and Visual Metrics
   * (when present) shows its three rows.
   */
  lemma PanelLayout<O>(profile: Profile<O>, status: Status, fmt: Formatters)
    ensures var sections := Render(profile, status, fmt);
      && Headings(sections[0].rows) == Select(GeneralOrder, profile.meta, status, fmt)
      && Headings(sections[1].rows) == Select(ApplicationOrder, profile.meta, status, fmt)
      && Headings(sections[2].rows) == Select(PlatformOrder, profile.meta, status, fmt)
      && (profile.meta.visualMetrics.Some? ==>
            Headings(sections[3].rows) == [SpeedIndexHeading, PerceptualHeading, ContentfulHeading])
  {
    GeneralHeadings(profile.meta, status, fmt);
    ApplicationHeadings(profile.meta, fmt, status);
    PlatformHeadings(profile.meta, fmt, status);
    if profile.meta.visualMetrics.Some? {
      VisualMetricsContents(profile.meta.visualMetrics.value);
    }
  }
}
