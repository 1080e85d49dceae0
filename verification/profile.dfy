/**
 * The inputs of the meta-information panel (a profile's metadata, the
 * symbolication status, the injected formatters) and the rows and sections
 * it displays.
 */
module ProfileMeta {
  import opened Wrappers

  /** The recording buffer's settings; `capacity` counts 8-byte entries, `duration` 0 means unlimited. */
  datatype RecordingConfig = RecordingConfig(
    capacity: int,
    duration: int,
    features: seq<string>,
    threads: seq<string>)

  /** Page-load scores; floating-point in the source, passed through unchanged. */
  datatype VisualMetrics = VisualMetrics(
    speedIndex: real,
    perceptualSpeedIndex: real,
    contentfulSpeedIndex: real)

  /**
   * The metadata fields the panel reads. `extensions` holds the extension
   * table's `name` column. The fields `formatPlatform` reads (OS, toolkit,
   * ...) are not modelled: its result is an arbitrary string per profile.
   */
  datatype Meta = Meta(
    startTime: Option<real>,
    interval: Option<real>,
    preprocessedProfileVersion: Option<int>,
    configuration: Option<RecordingConfig>,
    product: Option<string>,
    updateChannel: Option<string>,
    appBuildID: Option<string>,
    sourceURL: Option<string>,
    debug: Option<bool>,
    extensions: Option<seq<string>>,
    physicalCPUs: Option<int>,
    logicalCPUs: Option<int>,
    abi: Option<string>,
    visualMetrics: Option<VisualMetrics>,
    symbolicated: bool)

  /** A profile: its metadata and an overhead payload `O` that is only forwarded. */
  datatype Profile<O> = Profile(meta: Meta, profilerOverhead: Option<O>)

  /** The two symbolication states; the source's type admits no third. */
  datatype Status = Done | Symbolicating

  /**
   * The formatting utilities the panel calls, as pure black boxes:
   * `formatDate` is the locale-dependent date rendering of the start time.
   */
  datatype Formatters = Formatters(
    formatDate: real -> string,
    formatTimestamp: (real, int, int) -> string,
    formatBytes: (int, int) -> string,
    formatProductAndVersion: Meta -> string,
    formatPlatform: Meta -> string)

  /** What a row shows after its label. */
  datatype Content =
    | Text(text: string)
    | Number(value: real)
    | Link(href: string, text: string)
    | Items(items: seq<string>)
    | Button(caption: string)

  datatype Row = Row(heading: string, content: Content)

  /** A titled (or untitled) group of rows, or the delegated overhead statistics view. */
  datatype Section<O> =
    | Section(title: Option<string>, rows: seq<Row>)
    | OverheadStatistics(payload: O)

  /** JavaScript truthiness of optional fields: absent, 0 and "" are all false. */
  predicate TruthyInt(x: Option<int>) {
    x.Some? && x.value != 0
  }

  predicate TruthyReal(x: Option<real>) {
    x.Some? && x.value != 0.0
  }

  predicate TruthyString(x: Option<string>) {
    x.Some? && x.value != ""
  }

  /** The text a reader sees in a row's content, when it has one. */
  function VisibleText(c: Content): Option<string> {
    match c
    case Text(t) => Some(t)
    case Link(_, t) => Some(t)
    case Button(t) => Some(t)
    case _ => None
  }

  /** The label column of `rows`, top to bottom. */
  function Headings(rows: seq<Row>): (ls: seq<string>)
    ensures |ls| == |rows|
  {
    if rows == [] then [] else [rows[0].heading] + Headings(rows[1..])
  }

  lemma {:induction false} HeadingsAppend(a: seq<Row>, b: seq<Row>)
    ensures Headings(a + b) == Headings(a) + Headings(b)
    decreases |a|
  {
    if a == [] {
      assert a + b == b;
    } else {
      assert (a + b)[1..] == a[1..] + b;
      HeadingsAppend(a[1..], b);
    }
  }

  lemma HeadingsOfOne(rows: seq<Row>)
    requires |rows| <= 1
    ensures Headings(rows) == if rows == [] then [] else [rows[0].heading]
  {
    if rows != [] {
      assert rows[1..] == [];
    }
  }

  /** The content of the first row carrying `heading`, if any. */
  function Find(rows: seq<Row>, heading: string): (r: Option<Content>)
    ensures r.None? <==> heading !in Headings(rows)
  {
    if rows == [] then None
    else if rows[0].heading == heading then Some(rows[0].content)
    else Find(rows[1..], heading)
  }

  lemma {:induction false} FindAppend(a: seq<Row>, b: seq<Row>, heading: string)
    ensures Find(a + b, heading) == if heading in Headings(a) then Find(a, heading) else Find(b, heading)
    decreases |a|
  {
    if a == [] {
      assert a + b == b;
    } else {
      assert (a + b)[1..] == a[1..] + b;
      assert Headings(a) == [a[0].heading] + Headings(a[1..]);
      FindAppend(a[1..], b, heading);
    }
  }

  /** Looking a heading up in three consecutive parts: the first part showing it answers. */
  lemma FindInThree(a: seq<Row>, b: seq<Row>, c: seq<Row>, heading: string)
    ensures Find(a + b + c, heading)
      == if heading in Headings(a) then Find(a, heading)
         else if heading in Headings(b) then Find(b, heading)
         else Find(c, heading)
  {
    HeadingsAppend(a, b);
    FindAppend(a, b, heading);
    FindAppend(a + b, c, heading);
  }

  lemma FindInFive(a: seq<Row>, b: seq<Row>, c: seq<Row>, d: seq<Row>, e: seq<Row>, heading: string)
    ensures Find(a + b + c + d + e, heading)
      == if heading in Headings(a) then Find(a, heading)
         else if heading in Headings(b) then Find(b, heading)
         else if heading in Headings(c) then Find(c, heading)
         else if heading in Headings(d) then Find(d, heading)
         else Find(e, heading)
  {
    FindInThree(a, b, c, heading);
    HeadingsAppend(a, b);
    HeadingsAppend(a + b, c);
    FindInThree(a + b + c, d, e, heading);
  }

  lemma HeadingsThree(a: seq<Row>, b: seq<Row>, c: seq<Row>)
    ensures Headings(a + b + c) == Headings(a) + Headings(b) + Headings(c)
  {
    HeadingsAppend(a, b);
    HeadingsAppend(a + b, c);
  }
}
