/** Tiered bounding of a backup result: what each tier does to the result and to its stdout object.

Models agent/cmd/breeze-backup/result_bounds.go. JSON is taken at value level. A stdout carries its
text and what json.Unmarshal makes of it, which is left open for the original text; the text a
re-encoded object gets is left open too (`Encoder`), so every statement holds for any encoding.
*/
module ResultBounds {
  import opened Options
  import opened Bytes
  import opened WarningNotes
  import opened SortedKeys

  datatype Json =
    | JNull
    | JBool(b: bool)
    | JNumber(literal: Bytes)
    | JString(s: Bytes)
    | JArray(items: seq<Json>)
    | JObject(members: map<Bytes, Json>)
  {
    predicate Container?() {
      JArray? || JObject?
    }

    /** What json.Unmarshal into a Go string yields: null leaves the zero value, other shapes fail. */
    function AsString(): (r: Option<Bytes>) {
      match this
      case JString(s) => Some(s)
      case JNull => Some("")
      case _ => None
    }
  }

  /** A decoded stdout object. `raw` is the text each member had when it was decoded; members the tiers
      rewrite are never looked up there again. */
  datatype Body = Body(fields: map<Bytes, Json>, raw: map<Bytes, Bytes>)

  datatype Stdout = Stdout(text: Bytes, parsed: Option<Body>)

  datatype Result = Result(commandId: Bytes, success: bool, stdout: Stdout, stderr: Bytes, durationMs: int)

  type Encoder = map<Bytes, Json> -> Bytes

  // ---------------------------------------------------------------- limits

  const SERVER_RESULT_BUDGET: nat := 5_000_000 - 64 * 1024
  const RESULT_PAYLOAD_BUDGET: nat := 16 * 1024 * 1024 - 64 * 1024
  const MAX_LAST_RESORT: nat := 1024
  const BULK_THRESHOLD: nat := 4 * 1024

  datatype Limit = NoLimit | ServerResult | IpcFrame | ResultText
  {
    function Budget(): (n: nat) {
      match this
      case NoLimit => 0
      case ServerResult => SERVER_RESULT_BUDGET
      case IpcFrame => RESULT_PAYLOAD_BUDGET
      case ResultText => MAX_TEXT
    }

    function Label(): (s: Bytes) {
      match this
      case NoLimit => ""
      case ServerResult => "server result budget"
      case IpcFrame => "agent IPC budget"
      case ResultText => "free-text field cap"
    }

    function Describe(): (s: Bytes) {
      Decimal(Budget()) + " byte " + Label()
    }
  }

  function SignedDecimal(n: int): (d: Bytes) {
    if n < 0 then "-" + Decimal(-n) else Decimal(n)
  }

  /** json.Marshal of the result. */
  function Marshal(r: Result): (data: Bytes) {
    "{\"commandId\":" + Quote(r.commandId) +
    ",\"success\":" + (if r.success then "true" else "false") +
    ",\"stdout\":" + Quote(r.stdout.text) +
    ",\"stderr\":" + Quote(r.stderr) +
    ",\"durationMs\":" + SignedDecimal(r.durationMs) + "}"
  }

  function ExceededLimit(r: Result): (l: Limit) {
    if |r.stdout.text| > SERVER_RESULT_BUDGET then ServerResult
    else if |r.stdout.text| + |r.stderr| + |r.commandId| > RESULT_PAYLOAD_BUDGET then IpcFrame
    else if |Marshal(r)| > RESULT_PAYLOAD_BUDGET then IpcFrame
    else NoLimit
  }

  predicate Fits(r: Result) {
    ExceededLimit(r) == NoLimit
  }

  // ---------------------------------------------------------------- the warning member

  /** decodeResultWarning of obj["warning"]: a member that is not a string is carried in encoded form. */
  function WarningOf(b: Body): (w: Bytes) {
    if "warning" !in b.fields then ""
    else match b.fields["warning"].AsString()
         case Some(s) => s
         case None => if "warning" in b.raw then b.raw["warning"] else ""
  }

  /** obj["warning"] = mustRawString(w), as it reads back. */
  function WithWarning(b: Body, w: Bytes): (b': Body) {
    b.(fields := b.fields["warning" := JString(Sanitize(w))])
  }

  function NoteFragment(b: Body, fragment: Bytes): (b': Body) {
    WithWarning(b, AppendNote(WarningOf(b), fragment))
  }

  // ---------------------------------------------------------------- tier 2

  /** boundObjectWarning. */
  function BoundWarning(b: Body): (b': Body) {
    var original := WarningOf(b);
    if "warning" !in b.fields || Compose(original, "") == original then b
    else WithWarning(b, Compose(original, ""))
  }

  function BoundWarningDropped(b: Body): (n: nat) {
    var original := WarningOf(b);
    if "warning" !in b.fields || Compose(original, "") == original then 0
    else TruncateText(original, MAX_RUN_TEXT).dropped
  }

  /** A tier's effect: the new object and the note it appended to the warning, if any. */
  datatype Step = Step(body: Body, note: Option<Bytes>)

  /** The entries of a non-empty array snapshot.files, or none. */
  function IndexEntries(b: Body): (n: nat) {
    if "snapshot" in b.fields && b.fields["snapshot"].JObject? &&
       "files" in b.fields["snapshot"].members && b.fields["snapshot"].members["files"].JArray?
    then |b.fields["snapshot"].members["files"].items|
    else 0
  }

  function Exceeded(limit: Limit): (s: Bytes) {
    ": the result exceeded the " + limit.Describe()
  }

  function IndexNote(entries: nat, limit: Limit): (s: Bytes) {
    "snapshot file index omitted " + "(" + (Decimal(entries) + " entries") + ")" +
    (Exceeded(limit) + "," + (" so per-file restore" + " browsing is unavailable" + " for this snapshot"))
  }

  /** emptySnapshotFiles. */
  function EmptyIndex(b: Body, limit: Limit): (s: Step) {
    var n := IndexEntries(b);
    if n == 0 then Step(b, None)
    else
      var snapshot := JObject(b.fields["snapshot"].members["files" := JArray([])]);
      var note := IndexNote(n, limit);
      Step(NoteFragment(b.(fields := b.fields["snapshot" := snapshot]), note), Some(note))
  }

  const ATTESTATION_BOUND: set<Bytes> := {"layoutManifest", "systemStateManifest", "attestation"}
  const MANIFESTS: set<Bytes> := {"layoutManifest", "systemStateManifest"}

  predicate IsBulk(b: Body, k: Bytes) {
    k in b.fields && b.fields[k].Container?() && k in b.raw && |b.raw[k]| > BULK_THRESHOLD
  }

  function BulkKeys(b: Body, keep: set<Bytes>): (ks: set<Bytes>) {
    set k | k in b.fields && k != "snapshot" && k !in keep && IsBulk(b, k)
  }

  function JoinKeys(ks: seq<Bytes>): (s: Bytes) {
    if ks == [] then "" else if |ks| == 1 then ks[0] else ks[0] + ", " + JoinKeys(ks[1..])
  }

  ghost function FieldsNote(ks: set<Bytes>, limit: Limit): (s: Bytes) {
    "detail field(s) omitted " + "(" + JoinKeys(Sorted(ks)) + ")" + Exceeded(limit)
  }

  /** dropBulkFields. */
  ghost function DropBulk(b: Body, limit: Limit, keep: set<Bytes>): (s: Step) {
    var ks := BulkKeys(b, keep);
    if ks == {} then Step(b, None)
    else
      var note := FieldsNote(ks, limit);
      Step(NoteFragment(b.(fields := b.fields - ks), note), Some(note))
  }

  /** The second bulk drop keeps nothing back; losing a manifest costs the attestation that names it. */
  ghost function DropBound(b: Body, limit: Limit): (s: Step) {
    var dropped := BulkKeys(b, {});
    var s := DropBulk(b, limit, {});
    if dropped * MANIFESTS == {} then s
    else s.(body := s.body.(fields := s.body.fields - {"attestation"}))
  }

  // ---------------------------------------------------------------- tier 3

  const IDENTITY_KEYS: set<Bytes> := {"id", "timestamp", "size", "formatVersion", "baseSnapshotId"}

  function Identity(snapshot: map<Bytes, Json>): (m: map<Bytes, Json>) {
    (map k | k in snapshot && k in IDENTITY_KEYS :: snapshot[k])["files" := JArray([])]
  }

  function ContainerKeys(b: Body): (ks: set<Bytes>) {
    set k | k in b.fields && b.fields[k].Container?()
  }

  /** A retained string is clipped to the free-text cap. */
  function ClipValue(v: Json): (v': Json) {
    if v.JString? && |v.s| > MAX_TEXT then JString(Sanitize(TruncateText(v.s, MAX_TEXT).text)) else v
  }

  function Scalars(b: Body): (b': Body) {
    var kept := map k | k in b.fields && !b.fields[k].Container?() :: ClipValue(b.fields[k]);
    b.(fields :=
         if "snapshot" in b.fields && b.fields["snapshot"].JObject?
         then kept["snapshot" := JObject(Identity(b.fields["snapshot"].members))]
         else kept)
  }

  /** reduceToScalars. */
  ghost function Reduce(b: Body, limit: Limit): (s: Step) {
    if ContainerKeys(b) == {} then Step(Scalars(b), None)
    else
      var note := FieldsNote(ContainerKeys(b), limit);
      Step(NoteFragment(Scalars(b), note), Some(note))
  }

  // ---------------------------------------------------------------- tier 4

  function LastResortNote(limit: Limit): (s: Bytes) {
    ("backup result exceeded the " + limit.Describe() + " and wa") + "s" +
    (" reduced to a terminal" + " status; detail was dropped")
  }

  function ClippedField(b: Body, k: Bytes): (s: Option<Bytes>) {
    if k !in b.fields then None
    else match b.fields[k].AsString()
         case Some(s) => Some(TruncateText(s, MAX_LAST_RESORT).text)
         case None => None
  }

  /** The snapshot's own id, when it is a non-empty string. */
  function SnapshotId(b: Body): (s: Option<Bytes>) {
    if "snapshot" in b.fields && b.fields["snapshot"].JObject? &&
       "id" in b.fields["snapshot"].members && b.fields["snapshot"].members["id"].JString? &&
       b.fields["snapshot"].members["id"].s != ""
    then Some(TruncateText(b.fields["snapshot"].members["id"].s, MAX_LAST_RESORT).text)
    else None
  }

  function Pair(k: Bytes, v: Option<Bytes>): (ps: seq<(Bytes, Bytes)>) {
    if v.Some? then [(k, v.value)] else []
  }

  /** The identifying members that can still be recovered, in the key order json.Marshal writes. */
  function IdPairs(b: Body): (ps: seq<(Bytes, Bytes)>) {
    Pair("id", ClippedField(b, "id")) +
    Pair("jobId", ClippedField(b, "jobId")) +
    Pair("snapshotId", if SnapshotId(b).Some? then SnapshotId(b) else ClippedField(b, "snapshotId")) +
    Pair("status", ClippedField(b, "status"))
  }

  function MinimalPairs(b: Body, warning: Bytes): (ps: seq<(Bytes, Bytes)>) {
    IdPairs(b) + [("warning", warning)]
  }

  function EncodePairs(ps: seq<(Bytes, Bytes)>): (text: Bytes) {
    if ps == [] then ""
    else Quote(ps[0].0) + ":" + Quote(ps[0].1) + (if |ps| > 1 then "," else "") + EncodePairs(ps[1..])
  }

  function DecodePairs(ps: seq<(Bytes, Bytes)>): (fields: map<Bytes, Json>) {
    if ps == [] then map[]
    else DecodePairs(ps[1..])[ps[0].0 := JString(Sanitize(ps[0].1))]
  }

  /** lastResortStdout. */
  function LastResort(b: Body, limit: Limit): (s: Stdout) {
    var ps := MinimalPairs(b, AppendNote(WarningOf(b), LastResortNote(limit)));
    Stdout("{" + EncodePairs(ps) + "}", Some(Body(DecodePairs(ps), map[])))
  }

  // ---------------------------------------------------------------- the whole function

  /** What the log line lists, in order. */
  datatype LogNote =
    | StderrTruncated(dropped: nat)
    | Unsummarised
    | WarningTruncated(dropped: nat)
    | IndexDropped(entries: nat)
    | FieldDropped(key: Bytes)
    | AttestationDropped(manifest: Bytes)
    | ReducedToScalars
    | MinimalStatus

  datatype Tier = AsGiven | Failed | IndexEmptied | BulkDropped | ManifestsDropped | ScalarsOnly | Minimal

  /** `tier` and `fragments` record which tier delivered and which notes it had appended by then. */
  datatype Fitted = Fitted(result: Result, log: seq<LogNote>, limit: Limit, tier: Tier, fragments: seq<Bytes>)

  function ClipStderr(r: Result): (r': Result) {
    r.(stderr := TruncateText(r.stderr, MAX_TEXT).text)
  }

  function Encoded(b: Body, encode: Encoder): (s: Stdout) {
    Stdout(encode(b.fields), Some(b))
  }

  function OversizeMessage(limit: Limit, original: nat): (s: Bytes) {
    "backup helper result exceeded the " + limit.Describe() + " (" + Decimal(original) +
    " bytes) and could not be summarised; the command may have succeeded but its output could not be delivered"
  }

  function OversizeFailure(r: Result, limit: Limit): (r': Result) {
    Result(TruncateText(r.commandId, MAX_LAST_RESORT).text, false, Stdout("", None),
           OversizeMessage(limit, |r.stdout.text| + |r.stderr|), r.durationMs)
  }

  function Notes(o: Option<Bytes>): (fs: seq<Bytes>) {
    if o.Some? then [o.value] else []
  }

  function DropLog(keys: seq<Bytes>): (log: seq<LogNote>) {
    if keys == [] then [] else [FieldDropped(keys[0])] + DropLog(keys[1..])
  }

  /** The second drop's log: the first manifest dropped also takes a present attestation along. */
  function BoundLog(keys: seq<Bytes>, attested: bool): (log: seq<LogNote>) {
    if keys == [] then []
    else if keys[0] in MANIFESTS && attested then
      [FieldDropped(keys[0]), AttestationDropped(keys[0])] + BoundLog(keys[1..], false)
    else [FieldDropped(keys[0])] + BoundLog(keys[1..], attested)
  }

  function Finish(result: Result, log: seq<LogNote>, limit: Limit, tier: Tier, fragments: seq<Bytes>): (f: Fitted) {
    Fitted(result, log, if log != [] && limit == NoLimit then ResultText else limit, tier, fragments)
  }

  function StderrLog(r: Result): (log: seq<LogNote>) {
    var dropped := TruncateText(r.stderr, MAX_TEXT).dropped;
    if dropped > 0 then [StderrTruncated(dropped)] else []
  }

  /** One point at which the object may be delivered: the object, its notes so far and the log so far. */
  datatype Stage = Stage(body: Body, fragments: seq<Bytes>, log: seq<LogNote>)

  function StageIndex(b: Body, limit: Limit): (s: Stage) {
    var bounded := BoundWarning(b);
    var e := EmptyIndex(bounded, limit);
    Stage(e.body, Notes(e.note),
          (if BoundWarningDropped(b) > 0 then [WarningTruncated(BoundWarningDropped(b))] else []) +
          (if e.note.Some? then [IndexDropped(IndexEntries(bounded))] else []))
  }

  ghost function StageBulk(s: Stage, limit: Limit): (s': Stage) {
    var d := DropBulk(s.body, limit, ATTESTATION_BOUND);
    Stage(d.body, s.fragments + Notes(d.note), s.log + DropLog(Sorted(BulkKeys(s.body, ATTESTATION_BOUND))))
  }

  ghost function StageBound(s: Stage, limit: Limit): (s': Stage) {
    var d := DropBound(s.body, limit);
    Stage(d.body, s.fragments + Notes(d.note),
          s.log + BoundLog(Sorted(BulkKeys(s.body, {})), "attestation" in DropBulk(s.body, limit, {}).body.fields))
  }

  ghost function StageScalars(s: Stage, limit: Limit): (s': Stage) {
    var d := Reduce(s.body, limit);
    Stage(d.body, s.fragments + Notes(d.note), s.log + [ReducedToScalars])
  }

  function Carry(r: Result, s: Stage, encode: Encoder): (r': Result) {
    r.(stdout := Encoded(s.body, encode))
  }

  /** Delivery at the first point that fits; `last` is what is left when none does. */
  ghost function Select(fits: Result -> bool, r: Result, s1: Stage, s2: Stage, s3: Stage, s4: Stage,
                        last: Stdout, lastNote: Bytes, limit: Limit, log: seq<LogNote>, encode: Encoder): (f: Fitted)
  {
    if fits(Carry(r, s1, encode)) then
      Finish(Carry(r, s1, encode), log + s1.log, limit, IndexEmptied, s1.fragments)
    else if fits(Carry(r, s2, encode)) then
      Finish(Carry(r, s2, encode), log + s2.log, limit, BulkDropped, s2.fragments)
    else if fits(Carry(r, s3, encode)) then
      Finish(Carry(r, s3, encode), log + s3.log, limit, ManifestsDropped, s3.fragments)
    else if fits(Carry(r, s4, encode)) then
      Finish(Carry(r, s4, encode), log + s4.log, limit, ScalarsOnly, s4.fragments)
    else
      Finish(Shrunk(r, last), log + s4.log + [MinimalStatus], limit, Minimal, s4.fragments + [lastNote])
  }

  /** Tier 4's result around a minimal stdout. */
  function Shrunk(r: Result, last: Stdout): (r': Result) {
    r.(stdout := last,
       stderr := TruncateText(r.stderr, MAX_LAST_RESORT).text,
       commandId := TruncateText(r.commandId, MAX_LAST_RESORT).text)
  }

  /** The tiers for a stdout that is an object. */
  ghost function FitObject(r: Result, b: Body, limit: Limit, log: seq<LogNote>, encode: Encoder): (f: Fitted) {
    var s1 := StageIndex(b, limit);
    var s2 := StageBulk(s1, limit);
    var s3 := StageBound(s2, limit);
    var s4 := StageScalars(s3, limit);
    Select(Fits, r, s1, s2, s3, s4, LastResort(s4.body, limit), LastResortNote(limit), limit, log, encode)
  }

  /** fitBackupResult past tier 1. */
  ghost function FitClipped(r: Result, limit: Limit, log: seq<LogNote>, encode: Encoder): (f: Fitted) {
    if Fits(r) then Finish(r, log, limit, AsGiven, [])
    else if r.stdout.parsed.None? then Finish(OversizeFailure(r, limit), log + [Unsummarised], limit, Failed, [])
    else FitObject(r, r.stdout.parsed.value, limit, log, encode)
  }

  /** fitBackupResult: the limit is read off the result as given, before stderr is clipped. */
  ghost function Fit(result: Result, encode: Encoder): (f: Fitted) {
    FitClipped(ClipStderr(result), ExceededLimit(result), StderrLog(result), encode)
  }
}
