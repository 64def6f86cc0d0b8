/** Write-once, versioned checkpoint storage
    (MEIZEX_AIR/src/meizex_air/bounded_execution_store.py) for one writer that may crash between
    any two file operations. Records stand for their canonical JSON; the envelope's text form,
    the digest and the fingerprint are arbitrary functions with the one law that parsing undoes
    serializing. */
module CheckpointStore {
  import opened Common
  import opened Ordering
  import Text

  type Path = seq<string>

  datatype Record = Record(missionId: string, sprintId: string, version: int, body: string)

  datatype Envelope = Envelope(envelopeVersion: string, recordType: string, integrity: nat, fingerprint: Option<nat>, record: Record)

  datatype Format = Format(serialize: Envelope -> string, parse: string -> Option<Envelope>, digest: Record -> nat, fingerprint: Record -> nat)

  datatype StoreError = NotFound | InvalidRecord | UnsupportedVersion | Integrity | ImmutabilityConflict | IoFailure

  ghost predicate FormatOk(f: Format) {
    forall e :: f.parse(f.serialize(e)) == Some(e)
  }

  // ---------------------------------------------------------------- paths

  /** What `str.strip` removes: the Unicode white space and the four separator controls. */
  predicate IsBlank(c: char) {
    var n := c as int;
    || 0x09 <= n <= 0x0D || 0x1C <= n <= 0x20 || n == 0x85 || n == 0xA0 || n == 0x1680
    || 0x2000 <= n <= 0x200A || n == 0x2028 || n == 0x2029 || n == 0x202F || n == 0x205F || n == 0x3000
  }

  function Trim(s: string): (r: string)
    ensures r != [] ==> !IsBlank(r[0]) && !IsBlank(r[|r| - 1])
  {
    if s == [] then []
    else if IsBlank(s[0]) then Trim(s[1..])
    else if IsBlank(s[|s| - 1]) then Trim(s[..|s| - 1])
    else s
  }

  /** What is trimmed is exactly the blanks around the rest. */
  lemma {:induction false} TrimExactly(s: string) returns (a: string, b: string)
    ensures s == a + Trim(s) + b && forall c :: c in a + b ==> IsBlank(c)
  {
    if s == [] {
      a, b := [], [];
    } else if IsBlank(s[0]) {
      a, b := TrimExactly(s[1..]);
      a := [s[0]] + a;
      assert s == [s[0]] + s[1..];
    } else if IsBlank(s[|s| - 1]) {
      a, b := TrimExactly(s[..|s| - 1]);
      b := b + [s[|s| - 1]];
      assert s == s[..|s| - 1] + [s[|s| - 1]];
    } else {
      a, b := [], [];
    }
  }

  /** `_safe_path_component`: the stripped value, if it is exactly one plain path segment. */
  function SafeComponent(value: string): (r: Result<string, StoreError>)
    ensures r.Err? ==> r.error == InvalidRecord
    ensures r.Ok? ==> r.value == Trim(value) != "" && '/' !in r.value && '\\' !in r.value && r.value != "." && r.value != ".."
  {
    var c := Trim(value);
    if c == "" || '\0' in c || c == "." || c == ".." || '/' in c || '\\' in c || ':' in c then Err(InvalidRecord) else Ok(c)
  }

  function SafeVersion(version: int): Result<string, StoreError> {
    if version < 1 then Err(InvalidRecord) else Ok(Text.Decimal(version))
  }

  const SUFFIX := ".json"

  function CheckpointPath(mission: string, sprint: string, version: int): Result<Path, StoreError> {
    var v, s, m := SafeVersion(version), SafeComponent(sprint), SafeComponent(mission);
    if v.Err? then Err(v.error)
    else if s.Err? then Err(s.error)
    else if m.Err? then Err(m.error)
    else Ok(["missions", m.value, "checkpoints", s.value, v.value + SUFFIX])
  }

  /** One plain path segment, once trimmed. */
  predicate Plain(value: string) {
    var c := Trim(value);
    c != "" && c != "." && c != ".." && forall i :: 0 <= i < |c| ==> c[i] !in ['\0', '/', '\\', ':']
  }

  /** A key has a path exactly when its parts are plain and its version is positive; the path is made
      of the trimmed parts and the decimal version. */
  lemma PathExactly(mission: string, sprint: string, version: int)
    ensures CheckpointPath(mission, sprint, version).Ok? <==> version >= 1 && Plain(mission) && Plain(sprint)
    ensures CheckpointPath(mission, sprint, version).Ok? ==>
              CheckpointPath(mission, sprint, version).value
              == ["missions", Trim(mission), "checkpoints", Trim(sprint), Text.Decimal(version) + ".json"]
    ensures CheckpointPath(mission, sprint, version).Err? ==> CheckpointPath(mission, sprint, version).error == InvalidRecord
  {
    hide Trim, Text.Decimal;
  }

  predicate Ordinary(c: char) { 'a' <= c <= 'z' || 'A' <= c <= 'Z' || '0' <= c <= '9' || c == '-' || c == '_' || c == '.' }

  predicate Space(c: char) { c == ' ' || c == '\t' || c == '\n' || c == '\r' }

  predicate Spaces(s: string) { forall i :: 0 <= i < |s| ==> Space(s[i]) }

  lemma {:induction false} TrimFront(before: string, rest: string)
    requires Spaces(before)
    ensures Trim(before + rest) == Trim(rest)
  {
    if before == [] {
      assert before + rest == rest;
    } else {
      assert Space(before[0]);
      TrimFront(before[1..], rest);
      assert (before + rest)[1..] == before[1..] + rest;
    }
  }

  lemma {:induction false} TrimBack(s: string, after: string)
    requires Spaces(after) && s != [] && Ordinary(s[0]) && Ordinary(s[|s| - 1])
    ensures Trim(s + after) == s
  {
    if after == [] {
      assert s + after == s;
    } else {
      var n := |after| - 1;
      assert Space(after[n]);
      TrimBack(s, after[..n]);
      var x := s + after;
      assert x[..|x| - 1] == s + after[..n] && x[|x| - 1] == after[n] && x[0] == s[0];
    }
  }

  /** The spaces at both ends go, and nothing else. */
  lemma SpacesTrimmed(before: string, s: string, after: string)
    requires Spaces(before) && Spaces(after) && s != [] && Ordinary(s[0]) && Ordinary(s[|s| - 1])
    ensures Trim(before + s + after) == s
  {
    hide *;
    assert before + s + after == before + (s + after);
    TrimFront(before, s + after);
    TrimBack(s, after);
  }

  /** An id of letters, digits, dashes, underscores and inner dots is a valid part of a key as it is,
      whatever spaces stand around it, from version 1 on. */
  lemma OrdinaryKey(mission: string, sprint: string, version: int, before: string, after: string)
    requires mission != [] && Ordinary(mission[0]) && mission[0] != '.' && (forall c :: c in mission ==> Ordinary(c))
    requires sprint != [] && Ordinary(sprint[0]) && sprint[0] != '.' && (forall c :: c in sprint ==> Ordinary(c))
    requires Ordinary(mission[|mission| - 1]) && Ordinary(sprint[|sprint| - 1])
    requires Spaces(before) && Spaces(after)
    ensures CheckpointPath(before + mission + after, before + sprint + after, version) ==
            if version >= 1 then Ok(["missions", mission, "checkpoints", sprint, Text.Decimal(version) + ".json"]) else Err(InvalidRecord)
  {
    SpacesTrimmed(before, mission, after);
    SpacesTrimmed(before, sprint, after);
    OrdinaryIsPlain(mission);
    OrdinaryIsPlain(sprint);
    hide Trim, Text.Decimal, Ordinary, Spaces;
  }

  lemma OrdinaryIsPlain(s: string)
    requires s != [] && s[0] != '.' && forall c :: c in s ==> Ordinary(c)
    ensures s != "." && s != ".." && '\0' !in s && '/' !in s && '\\' !in s && ':' !in s
  {
  }

  /** Two keys share a file exactly when they agree up to surrounding blanks, which record
      validation has already stripped. */
  lemma PathsIdentifyKeys(m: string, s: string, v: int, m': string, s': string, v': int)
    requires CheckpointPath(m, s, v).Ok? && CheckpointPath(m', s', v').Ok?
    ensures CheckpointPath(m, s, v) == CheckpointPath(m', s', v') <==> Trim(m) == Trim(m') && Trim(s) == Trim(s') && v == v'
  {
    var p, q := CheckpointPath(m, s, v).value, CheckpointPath(m', s', v').value;
    if p == q {
      assert p[1] == q[1] && p[3] == q[3] && p[4] == q[4];
      var d, d' := Text.Decimal(v), Text.Decimal(v');
      assert (d + SUFFIX)[..|d + SUFFIX| - 5] == d && (d' + SUFFIX)[..|d' + SUFFIX| - 5] == d';
      Text.DecimalInjective(v, v');
    }
  }

  /** Temporary siblings. */
  const TEMP_PREFIX := ".tmp-"

  predicate IsTemp(p: Path) { p != [] && TEMP_PREFIX <= p[|p| - 1] }

  function TempPath(p: Path, random: string): Path
    requires p != []
  {
    p[..|p| - 1] + [TEMP_PREFIX + random + SUFFIX]
  }

  lemma CheckpointIsNotTemp(m: string, s: string, v: int)
    requires CheckpointPath(m, s, v).Ok?
    ensures !IsTemp(CheckpointPath(m, s, v).value)
  {
    var name := Text.Decimal(v) + SUFFIX;
    assert name[0] == Text.Decimal(v)[0];
    assert name[0] in Text.DIGITS;
    assert TEMP_PREFIX[0] == '.';
  }

  // ---------------------------------------------------------------- reading

  type Files = map<Path, string>

  const ENVELOPE_VERSION := "1.0"
  const RECORD_TYPE := "SprintCheckpoint"

  function EnvelopeOf(f: Format, r: Record): Envelope {
    Envelope(ENVELOPE_VERSION, RECORD_TYPE, f.digest(r), Some(f.fingerprint(r)), r)
  }

  /** `_read_envelope`. */
  function ReadEnvelope(f: Format, files: Files, p: Path): Result<Envelope, StoreError> {
    if p !in files then Err(NotFound)
    else
      var parsed := f.parse(files[p]);
      if parsed.None? then Err(InvalidRecord)
      else if parsed.value.envelopeVersion != ENVELOPE_VERSION then Err(UnsupportedVersion)
      else if parsed.value.recordType != RECORD_TYPE then Err(InvalidRecord)
      else if parsed.value.integrity != f.digest(parsed.value.record) then Err(Integrity)
      else Ok(parsed.value)
  }

  function Load(f: Format, files: Files, mission: string, sprint: string, version: int): Result<Record, StoreError> {
    var p := CheckpointPath(mission, sprint, version);
    if p.Err? then Err(p.error)
    else
      var e := ReadEnvelope(f, files, p.value);
      if e.Err? then Err(e.error)
      else if e.value.fingerprint.Some? && e.value.fingerprint.value != f.fingerprint(e.value.record) then Err(Integrity)
      else Ok(e.value.record)
  }

  /** Any file at all: a record is only loaded from an envelope of the right version and type whose
      digest, and fingerprint if it has one, are those of the record; any other file is refused. */
  lemma LoadChecksExactly(f: Format, files: Files, mission: string, sprint: string, version: int)
    requires CheckpointPath(mission, sprint, version).Ok?
    ensures var p := CheckpointPath(mission, sprint, version).value;
            var r := Load(f, files, mission, sprint, version);
            && (r == Err(NotFound) <==> p !in files)
            && (forall x :: r == Ok(x) <==>
                  && p in files && f.parse(files[p]).Some?
                  && var e := f.parse(files[p]).value;
                     && e.envelopeVersion == "1.0" && e.recordType == "SprintCheckpoint" && e.record == x
                     && e.integrity == f.digest(x) && (e.fingerprint.None? || e.fingerprint == Some(f.fingerprint(x))))
            && (p in files && f.parse(files[p]).None? ==> r == Err(InvalidRecord))
            && (p in files && f.parse(files[p]).Some? ==>
                  var e := f.parse(files[p]).value;
                  && (e.envelopeVersion != "1.0" ==> r == Err(UnsupportedVersion))
                  && (e.envelopeVersion == "1.0" && e.recordType != "SprintCheckpoint" ==> r == Err(InvalidRecord))
                  && (e.envelopeVersion == "1.0" && e.recordType == "SprintCheckpoint" && e.integrity != f.digest(e.record) ==> r == Err(Integrity)))
  {
    hide CheckpointPath;
  }

  /** Every file is a temporary or the complete envelope of a record filed under its own key. */
  ghost predicate FilesOk(f: Format, files: Files) {
    forall p :: p in files ==> IsTemp(p) || Published(f, files, p)
  }

  ghost predicate Published(f: Format, files: Files, p: Path)
    requires p in files
  {
    exists r: Record :: CheckpointPath(r.missionId, r.sprintId, r.version) == Ok(p) && files[p] == f.serialize(EnvelopeOf(f, r))
  }

  /** A reader gets nothing or the complete record of its key, never a partial or foreign one. */
  lemma ReadersSeeNothingOrAll(f: Format, files: Files, m: string, s: string, v: int)
    requires FormatOk(f) && FilesOk(f, files)
    ensures var r := Load(f, files, m, s, v);
            match r
            case Err(e) => if CheckpointPath(m, s, v).Err? then e == InvalidRecord
                           else e == NotFound && CheckpointPath(m, s, v).value !in files
            case Ok(x) => CheckpointPath(m, s, v).Ok? && CheckpointPath(m, s, v).value in files
                          && Trim(x.missionId) == Trim(m) && Trim(x.sprintId) == Trim(s) && x.version == v
                          && files[CheckpointPath(m, s, v).value] == f.serialize(EnvelopeOf(f, x))
  {
    if CheckpointPath(m, s, v).Ok? && CheckpointPath(m, s, v).value in files {
      var p := CheckpointPath(m, s, v).value;
      CheckpointIsNotTemp(m, s, v);
      assert Published(f, files, p);
      var r: Record :| CheckpointPath(r.missionId, r.sprintId, r.version) == Ok(p) && files[p] == f.serialize(EnvelopeOf(f, r));
      assert f.parse(files[p]) == Some(EnvelopeOf(f, r));
      PathsIdentifyKeys(r.missionId, r.sprintId, r.version, m, s, v);
    }
  }

  /** `r` is the record published under the key. */
  ghost predicate StoredUnder(f: Format, files: Files, r: Record, m: string, s: string, v: int) {
    && CheckpointPath(m, s, v).Ok? && CheckpointPath(m, s, v).value in files
    && Trim(r.missionId) == Trim(m) && Trim(r.sprintId) == Trim(s) && r.version == v
    && files[CheckpointPath(m, s, v).value] == f.serialize(EnvelopeOf(f, r))
  }

  /** A load gives a record exactly when that record is published under the key, so there is at most
      one; without one it says that nothing is there, or that the key is no valid key. */
  lemma LoadExactly(f: Format, files: Files, m: string, s: string, v: int)
    requires FormatOk(f) && FilesOk(f, files)
    ensures forall x :: Load(f, files, m, s, v) == Ok(x) <==> StoredUnder(f, files, x, m, s, v)
    ensures Load(f, files, m, s, v).Err? <==> forall x :: !StoredUnder(f, files, x, m, s, v)
    ensures Load(f, files, m, s, v).Err? ==>
              Load(f, files, m, s, v).error == if CheckpointPath(m, s, v).Ok? then NotFound else InvalidRecord
  {
    ReadersSeeNothingOrAll(f, files, m, s, v);
    forall x | StoredUnder(f, files, x, m, s, v) ensures Load(f, files, m, s, v) == Ok(x) {
      assert f.parse(f.serialize(EnvelopeOf(f, x))) == Some(EnvelopeOf(f, x));
    }
    if Load(f, files, m, s, v).Ok? {
      assert StoredUnder(f, files, Load(f, files, m, s, v).value, m, s, v);
    }
  }

  // ---------------------------------------------------------------- the writer, step by step

  /** A write in progress: `text` goes to `target` through `temp`, of which `written` characters exist. */
  datatype Write = Write(target: Path, temp: Path, text: string, written: nat)

  datatype Disk = Disk(files: Files, writer: Option<Write>)

  datatype Action =
    | BeginSave(r: Record, random: string)   // exists-check, then a fresh temporary file
    | WriteSome(n: nat)                      // more of the text reaches the temporary file
    | Replace                                // rename over the target
    | Crash                                  // the process disappears, files stay
    | Cleanup                                // an error is raised, the temporary file is removed

  datatype SaveOutcome = AlreadyStored | Refused(error: StoreError) | Writing(p: Path)

  /** What `save_checkpoint` decides before it writes anything. */
  function Check(f: Format, files: Files, r: Record): SaveOutcome {
    var p := CheckpointPath(r.missionId, r.sprintId, r.version);
    if p.Err? then Refused(p.error)
    else if p.value !in files then Writing(p.value)
    else
      var e := ReadEnvelope(f, files, p.value);
      if e.Err? then Refused(e.error)
      else if e.value.record == r then AlreadyStored
      else Refused(ImmutabilityConflict)
  }

  predicate Enabled(f: Format, d: Disk, a: Action) {
    match a
    case BeginSave(r, random) =>
      d.writer.None? && var o := Check(f, d.files, r); (o.Writing? ==> TempPath(o.p, random) !in d.files && o.p != [])
    case WriteSome(n) => d.writer.Some? && d.writer.value.written + n <= |d.writer.value.text| && d.writer.value.temp in d.files
    case Replace => d.writer.Some? && d.writer.value.written == |d.writer.value.text| && d.writer.value.temp in d.files
    case Crash => d.writer.Some?
    case Cleanup => d.writer.Some?
  }

  function Do(f: Format, d: Disk, a: Action): Disk
    requires Enabled(f, d, a)
  {
    match a
    case BeginSave(r, random) =>
      var o := Check(f, d.files, r);
      if o.Writing? then
        var temp := TempPath(o.p, random);
        Disk(d.files[temp := ""], Some(Write(o.p, temp, f.serialize(EnvelopeOf(f, r)), 0)))
      else d
    case WriteSome(n) =>
      var w := d.writer.value;
      Disk(d.files[w.temp := w.text[..w.written + n]], Some(w.(written := w.written + n)))
    case Replace =>
      var w := d.writer.value;
      Disk((d.files - {w.temp})[w.target := d.files[w.temp]], None)
    case Crash => d.(writer := None)
    case Cleanup => Disk(d.files - {d.writer.value.temp}, None)
  }

  ghost predicate DiskOk(f: Format, d: Disk) {
    && FilesOk(f, d.files)
    && (d.writer.Some? ==>
          var w := d.writer.value;
          && IsTemp(w.temp) && !IsTemp(w.target) && w.target !in d.files
          && w.temp in d.files && w.written <= |w.text| && d.files[w.temp] == w.text[..w.written]
          && exists r: Record :: CheckpointPath(r.missionId, r.sprintId, r.version) == Ok(w.target) && w.text == f.serialize(EnvelopeOf(f, r)))
  }

  lemma TempPathIsTemp(p: Path, random: string)
    requires p != []
    ensures IsTemp(TempPath(p, random))
  {
    var name := TEMP_PREFIX + random + SUFFIX;
    assert name[..|TEMP_PREFIX|] == TEMP_PREFIX;
  }

  /** Published files survive every step unchanged. */
  ghost predicate KeepsPublished(a: Files, b: Files) {
    forall p :: p in a && !IsTemp(p) ==> p in b && b[p] == a[p]
  }

  lemma StepKeepsDisk(f: Format, d: Disk, a: Action)
    requires FormatOk(f) && DiskOk(f, d) && Enabled(f, d, a)
    ensures DiskOk(f, Do(f, d, a)) && KeepsPublished(d.files, Do(f, d, a).files)
  {
    var t := Do(f, d, a);
    match a {
      case BeginSave(r, random) =>
        if Check(f, d.files, r).Writing? {
          TempPathIsTemp(Check(f, d.files, r).p, random);
          CheckpointIsNotTemp(r.missionId, r.sprintId, r.version);
        }
      case WriteSome(n) =>
      case Replace =>
        var w := d.writer.value;
        assert w.text[..w.written] == w.text;
      case Crash =>
      case Cleanup =>
    }
    forall p | p in t.files && !IsTemp(p) ensures Published(f, t.files, p) {
      if p in d.files {
        assert Published(f, d.files, p);
      }
    }
  }

  predicate Possible(f: Format, d: Disk, run: seq<Action>)
    decreases |run|
  {
    run == [] || (Enabled(f, d, run[0]) && Possible(f, Do(f, d, run[0]), run[1..]))
  }

  function After(f: Format, d: Disk, run: seq<Action>): Disk
    requires Possible(f, d, run)
    decreases |run|
  {
    if run == [] then d else After(f, Do(f, d, run[0]), run[1..])
  }

  /** Over any sequence of saves, partial writes, publications, failures and crashes: a record once
      published is there for ever with the same content, and the disk stays readable. */
  lemma {:induction false} PublishedNeverChanges(f: Format, d: Disk, run: seq<Action>)
    requires FormatOk(f) && DiskOk(f, d) && Possible(f, d, run)
    ensures DiskOk(f, After(f, d, run)) && KeepsPublished(d.files, After(f, d, run).files)
    decreases |run|
  {
    if run != [] {
      StepKeepsDisk(f, d, run[0]);
      PublishedNeverChanges(f, Do(f, d, run[0]), run[1..]);
    }
  }

  /** What any reader was once given, it is given again after any further run. */
  lemma LoadIsStable(f: Format, d: Disk, run: seq<Action>, m: string, s: string, v: int)
    requires FormatOk(f) && DiskOk(f, d) && Possible(f, d, run)
    requires Load(f, d.files, m, s, v).Ok?
    ensures Load(f, After(f, d, run).files, m, s, v) == Load(f, d.files, m, s, v)
  {
    PublishedNeverChanges(f, d, run);
    CheckpointIsNotTemp(m, s, v);
    assert CheckpointPath(m, s, v).value in d.files;
  }

  /** On a sound disk a save is decided by what is published under its key: nothing means write,
      the same record is a no-op, a different one is refused, and only the first touches the disk. */
  lemma SaveDecision(f: Format, d: Disk, r: Record, random: string)
    requires FormatOk(f) && DiskOk(f, d) && Enabled(f, d, BeginSave(r, random))
    requires CheckpointPath(r.missionId, r.sprintId, r.version).Ok?
    ensures var stored := Load(f, d.files, r.missionId, r.sprintId, r.version);
            && (stored == Err(NotFound) <==> Check(f, d.files, r).Writing?)
            && (stored == Ok(r) <==> Check(f, d.files, r).AlreadyStored?)
            && (stored.Ok? && stored.value != r <==> Check(f, d.files, r) == Refused(ImmutabilityConflict))
            && (stored != Err(NotFound) ==> Do(f, d, BeginSave(r, random)) == d)
  {
    ReadersSeeNothingOrAll(f, d.files, r.missionId, r.sprintId, r.version);
  }

  /** An undisturbed save of a new key: afterwards loading the key returns the record. */
  lemma SaveThenLoad(f: Format, d: Disk, r: Record, random: string)
    requires FormatOk(f) && DiskOk(f, d) && d.writer.None?
    requires CheckpointPath(r.missionId, r.sprintId, r.version).Ok?
    requires CheckpointPath(r.missionId, r.sprintId, r.version).value !in d.files
    requires TempPath(CheckpointPath(r.missionId, r.sprintId, r.version).value, random) !in d.files
    ensures var run := [BeginSave(r, random), WriteSome(|f.serialize(EnvelopeOf(f, r))|), Replace];
            && Possible(f, d, run)
            && Load(f, After(f, d, run).files, r.missionId, r.sprintId, r.version) == Ok(r)
            && After(f, d, run).files == d.files[CheckpointPath(r.missionId, r.sprintId, r.version).value :=
                 f.serialize(Envelope("1.0", "SprintCheckpoint", f.digest(r), Some(f.fingerprint(r)), r))]
  {
    var text := f.serialize(EnvelopeOf(f, r));
    var p := CheckpointPath(r.missionId, r.sprintId, r.version).value;
    assert p != [];
    hide SafeComponent, Text.Decimal, Trim, CheckpointPath;
    var run := [BeginSave(r, random), WriteSome(|text|), Replace];
    TempPathIsTemp(p, random);
    CheckpointIsNotTemp(r.missionId, r.sprintId, r.version);
    var d1 := Do(f, d, run[0]);
    assert Enabled(f, d1, run[1]);
    var d2 := Do(f, d1, run[1]);
    assert text[..0 + |text|] == text;
    assert Enabled(f, d2, run[2]);
    var d3 := Do(f, d2, run[2]);
    assert run[1..] == [run[1], run[2]] && run[1..][1..] == [run[2]] && [run[2]][1..] == [];
    assert Possible(f, d2, [run[2]]) && Possible(f, d1, [run[1], run[2]]);
    assert After(f, d2, [run[2]]) == d3;
    assert After(f, d1, [run[1], run[2]]) == d3;
    assert After(f, d, run) == d3;
    assert f.parse(text) == Some(EnvelopeOf(f, r));
  }

  /** A save that does not come to its end: an error takes back all it wrote, a crash leaves the
      temporary file with what had reached it, and either way nothing else has changed. */
  lemma AbandonedSave(f: Format, d: Disk, r: Record, random: string, n: nat)
    requires DiskOk(f, d) && d.writer.None? && CheckpointPath(r.missionId, r.sprintId, r.version).Ok?
    requires CheckpointPath(r.missionId, r.sprintId, r.version).value !in d.files
    requires TempPath(CheckpointPath(r.missionId, r.sprintId, r.version).value, random) !in d.files
    requires n <= |f.serialize(EnvelopeOf(f, r))|
    ensures var begin := [BeginSave(r, random), WriteSome(n)];
            && Possible(f, d, begin + [Cleanup]) && After(f, d, begin + [Cleanup]) == d
            && Possible(f, d, begin + [Crash])
            && After(f, d, begin + [Crash]) == d.(files := d.files[TempPath(CheckpointPath(r.missionId, r.sprintId, r.version).value, random)
                                                                   := f.serialize(EnvelopeOf(f, r))[..n]])
  {
    var text, p := f.serialize(EnvelopeOf(f, r)), CheckpointPath(r.missionId, r.sprintId, r.version).value;
    assert p != [];
    hide SafeComponent, Text.Decimal, Trim, CheckpointPath, DiskOk;
    var temp := TempPath(p, random);
    var d1 := Do(f, d, BeginSave(r, random));
    var d2 := Do(f, d1, WriteSome(n));
    assert d2.files == d.files[temp := text[..n]];
    assert d2.files - {temp} == d.files;
    LastStep(f, d, BeginSave(r, random), WriteSome(n), Cleanup);
    LastStep(f, d, BeginSave(r, random), WriteSome(n), Crash);
  }

  lemma LastStep(f: Format, d: Disk, a: Action, b: Action, c: Action)
    requires Enabled(f, d, a) && Enabled(f, Do(f, d, a), b) && Enabled(f, Do(f, Do(f, d, a), b), c)
    ensures Possible(f, d, [a, b] + [c]) && After(f, d, [a, b] + [c]) == Do(f, Do(f, Do(f, d, a), b), c)
  {
    hide Enabled, Do;
    var d1 := Do(f, d, a);
    var d2 := Do(f, d1, b);
    var run := [a, b] + [c];
    assert run[1..] == [b, c] && [b, c][1..] == [c] && [c][1..] == [];
    assert Possible(f, d2, [c]) && After(f, d2, [c]) == Do(f, d2, c);
    assert Possible(f, d1, [b, c]) && After(f, d1, [b, c]) == Do(f, d2, c);
  }

  // ---------------------------------------------------------------- versions

  /** `int(item.stem)` on the plain digit names the store writes. */
  function VersionOfName(name: string): Option<nat> {
    if |name| > 5 && name[|name| - 5..] == SUFFIX && forall i :: 0 <= i < |name| - 5 ==> name[i] in Text.DIGITS
    then Some(Text.ParseDecimal(name[..|name| - 5])) else None
  }

  lemma VersionOfCheckpoint(v: nat)
    ensures VersionOfName(Text.Decimal(v) + SUFFIX) == Some(v)
  {
    var d := Text.Decimal(v);
    Text.ParseOfDecimal(v);
    assert (d + SUFFIX)[..|d|] == d && (d + SUFFIX)[|d|..] == SUFFIX;
  }

  lemma VersionOfTemp(name: string)
    requires TEMP_PREFIX <= name
    ensures VersionOfName(name).None?
  {
    assert name[0] == '.';
    assert '.' !in Text.DIGITS;
  }

  /** The versions published for one sprint. */
  ghost predicate HasVersion(files: Files, m: string, s: string, v: int) {
    CheckpointPath(m, s, v).Ok? && CheckpointPath(m, s, v).value in files
  }

  function Directory(mission: string, sprint: string): Path
    requires SafeComponent(mission).Ok? && SafeComponent(sprint).Ok?
  {
    ["missions", SafeComponent(mission).value, "checkpoints", SafeComponent(sprint).value]
  }

  function DirectoryFiles(files: Files, mission: string, sprint: string): (r: set<Path>)
    requires SafeComponent(mission).Ok? && SafeComponent(sprint).Ok?
    ensures forall p :: p in r <==> p in files && |p| == 5 && p[..4] == Directory(mission, sprint)
  {
    set p | p in files && |p| == 5 && p[..4] == Directory(mission, sprint)
  }

  function VersionKey(v: int): seq<int> { [v] }

  function SortVersions(versions: seq<int>): seq<int> { SortBy(versions, VersionKey) }

  lemma PublishingKeepsFilesOk(f: Format, files: Files, r: Record, p: Path)
    requires FormatOk(f) && FilesOk(f, files) && Check(f, files, r) == Writing(p)
    ensures FilesOk(f, files[p := f.serialize(EnvelopeOf(f, r))])
  {
    var after := files[p := f.serialize(EnvelopeOf(f, r))];
    forall q | q in after && !IsTemp(q) ensures Published(f, after, q) {
      if q != p { assert Published(f, files, q); }
    }
  }

  lemma WritingHasPath(f: Format, files: Files, r: Record, p: Path)
    requires Check(f, files, r) == Writing(p)
    ensures p != [] && p !in files && CheckpointPath(r.missionId, r.sprintId, r.version) == Ok(p)
  {
  }

  lemma TargetIsNotTemp(f: Format, files: Files, r: Record, p: Path, random: string)
    requires p != [] && Check(f, files, r) == Writing(p)
    ensures TempPath(p, random) != p
  {
    WritingHasPath(f, files, r, p);
    TempPathIsTemp(p, random);
    CheckpointIsNotTemp(r.missionId, r.sprintId, r.version);
  }

  class BoundedExecutionStore {
    const format: Format
    var files: Files

    constructor (format: Format)
      ensures this.format == format && files == map[]
    {
      this.format, files := format, map[];
    }

    /** `load_checkpoint`. On sound files the answer is the one record published under the key, and an
        error means that there is none. */
    method LoadCheckpoint(mission: string, sprint: string, version: int) returns (r: Result<Record, StoreError>)
      ensures r == Load(format, files, mission, sprint, version)
      ensures FormatOk(format) && FilesOk(format, files) ==>
                && (forall x :: r == Ok(x) <==> StoredUnder(format, files, x, mission, sprint, version))
                && (r == Err(NotFound) <==> CheckpointPath(mission, sprint, version).Ok?
                                            && forall x :: !StoredUnder(format, files, x, mission, sprint, version))
                && (r == Err(InvalidRecord) <==> CheckpointPath(mission, sprint, version).Err?)
    {
      if FormatOk(format) && FilesOk(format, files) {
        LoadExactly(format, files, mission, sprint, version);
      }
      hide StoredUnder, FilesOk, FormatOk;
      var p := CheckpointPath(mission, sprint, version);
      if p.Err? {
        return Err(p.error);
      }
      var envelope := ReadEnvelope(format, files, p.value);
      if envelope.Err? {
        return Err(envelope.error);
      }
      var record := envelope.value.record;
      if envelope.value.fingerprint.Some? && envelope.value.fingerprint.value != format.fingerprint(record) {
        return Err(Integrity);
      }
      r := Ok(record);
    }

    /** `save_checkpoint` without a crash. `fails` is an operating-system error while writing: the
        temporary file is removed and nothing else has changed. */
    method SaveCheckpoint(r: Record, random: string, fails: bool) returns (saved: Result<Record, StoreError>)
      requires FormatOk(format) && FilesOk(format, files)
      requires var o := Check(format, files, r); o.Writing? ==> TempPath(o.p, random) !in files
      modifies this
      ensures FilesOk(format, files)
      ensures match Check(format, old(files), r)
              case AlreadyStored => saved == Ok(r) && files == old(files)
              case Refused(e) => saved == Err(e) && files == old(files)
              case Writing(p) => if fails then saved == Err(IoFailure) && files == old(files)
                                 else saved == Ok(r) && files == old(files)[p :=
                                   format.serialize(Envelope("1.0", "SprintCheckpoint", format.digest(r), Some(format.fingerprint(r)), r))]
    {
      hide FilesOk, Check, FormatOk, CheckpointPath, TempPath, IsTemp;
      var o := Check(format, files, r);
      match o {
        case AlreadyStored => return Ok(r);
        case Refused(e) => return Err(e);
        case Writing(p) =>
          WritingHasPath(format, files, r, p);
          var temp := TempPath(p, random);
          TargetIsNotTemp(format, files, r, p, random);
          PublishingKeepsFilesOk(format, files, r, p);
          var text := format.serialize(EnvelopeOf(format, r));
          files := files[temp := text];
          if fails {
            files := files - {temp};
            assert files == old(files);
            return Err(IoFailure);
          }
          files := files[p := files[temp]] - {temp};
          assert files == old(files)[p := text];
          saved := Ok(r);
      }
    }

    /** Ascending, each version once, exactly the published ones. */
    method ListCheckpointVersions(mission: string, sprint: string) returns (r: Result<seq<int>, StoreError>)
      requires FilesOk(format, files)
      ensures r.Err? <==> SafeComponent(mission).Err? || SafeComponent(sprint).Err?
      ensures r.Err? ==> r.error == InvalidRecord
      ensures r.Ok? ==> forall v :: v in r.value <==> HasVersion(files, mission, sprint, v)
      ensures r.Ok? ==> forall i, j :: 0 <= i < j < |r.value| ==> r.value[i] < r.value[j]
    {
      var s := SafeComponent(sprint);
      if s.Err? { return Err(s.error); }
      var m := SafeComponent(mission);
      if m.Err? { return Err(m.error); }
      hide *;
      var versions := ScanDirectory(mission, sprint, DirectoryFiles(files, mission, sprint));
      VersionsListed(files, mission, sprint);
      AscendingVersions(versions);
      r := Ok(SortVersions(versions));
    }

    /** The directory loop, over its file names in any order. */
    method ScanDirectory(mission: string, sprint: string, all: set<Path>) returns (versions: seq<int>)
      requires FilesOk(format, files) && SafeComponent(mission).Ok? && SafeComponent(sprint).Ok?
      requires forall p :: p in all ==> p in files && |p| == 5 && p[..4] == Directory(mission, sprint)
      ensures NoDuplicates(versions)
      ensures forall v :: v in versions <==> CheckpointPath(mission, sprint, v).Ok? && CheckpointPath(mission, sprint, v).value in all
    {
      hide SafeComponent, CheckpointPath, Directory, FilesOk;
      versions := [];
      var pending := all;
      while pending != {}
        invariant pending <= all
        invariant NoDuplicates(versions)
        invariant forall v :: v in versions <==>
                    CheckpointPath(mission, sprint, v).Ok? && CheckpointPath(mission, sprint, v).value in all - pending
        decreases |pending|
      {
        var p :| p in pending;
        var version := VersionOfName(p[4]);
        FileVersion(format, files, mission, sprint, p);
        forall v | CheckpointPath(mission, sprint, v) == Ok(p) ensures version == Some(v) {
          CheckpointIsNotTemp(mission, sprint, v);
          PathsIdentifyKeys(mission, sprint, v, mission, sprint, version.value);
        }
        hide VersionOfName, IsTemp;
        pending := pending - {p};
        if version.Some? {
          versions := versions + [version.value];
        }
      }
    }

    /** The highest published version, or not found when there is none. */
    method LoadLatestCheckpoint(mission: string, sprint: string) returns (r: Result<Record, StoreError>)
      requires FormatOk(format) && FilesOk(format, files)
      ensures r.Ok? ==> HasVersion(files, mission, sprint, r.value.version)
      ensures r.Ok? ==> forall v :: HasVersion(files, mission, sprint, v) ==> v <= r.value.version
      ensures r.Ok? ==> r == Load(format, files, mission, sprint, r.value.version)
      ensures r == Err(NotFound) <==> SafeComponent(mission).Ok? && SafeComponent(sprint).Ok? && forall v :: !HasVersion(files, mission, sprint, v)
    {
      var versions := ListCheckpointVersions(mission, sprint);
      if versions.Err? {
        return Err(versions.error);
      }
      if versions.value == [] {
        return Err(NotFound);
      }
      var latest := versions.value[|versions.value| - 1];
      assert latest in versions.value;
      ReadersSeeNothingOrAll(format, files, mission, sprint, latest);
      r := LoadCheckpoint(mission, sprint, latest);
    }
  }

  lemma VersionInDirectory(files: Files, mission: string, sprint: string, v: int)
    requires SafeComponent(mission).Ok? && SafeComponent(sprint).Ok? && CheckpointPath(mission, sprint, v).Ok?
    ensures var p := CheckpointPath(mission, sprint, v).value; |p| == 5 && p[..4] == Directory(mission, sprint)
  {
  }

  lemma VersionsListed(files: Files, mission: string, sprint: string)
    requires SafeComponent(mission).Ok? && SafeComponent(sprint).Ok?
    ensures forall v :: HasVersion(files, mission, sprint, v) <==>
            (CheckpointPath(mission, sprint, v).Ok? &&
             CheckpointPath(mission, sprint, v).value in DirectoryFiles(files, mission, sprint))
  {
    forall v | HasVersion(files, mission, sprint, v) {
      VersionInDirectory(files, mission, sprint, v);
    }
  }

  lemma PathShape(mission: string, sprint: string, version: int)
    requires CheckpointPath(mission, sprint, version).Ok?
    ensures var p := CheckpointPath(mission, sprint, version).value;
            && version >= 1 && |p| == 5
            && p[1] == Trim(mission) && p[3] == Trim(sprint) && p[4] == Text.Decimal(version) + SUFFIX
  {
  }

  /** The version a file of the sprint's directory stands for; temporary files stand for none. */
  lemma FileVersion(f: Format, files: Files, mission: string, sprint: string, p: Path)
    requires FilesOk(f, files) && SafeComponent(mission).Ok? && SafeComponent(sprint).Ok?
    requires p in files && |p| == 5 && p[..4] == Directory(mission, sprint)
    ensures VersionOfName(p[4]).Some? <==> !IsTemp(p)
    ensures VersionOfName(p[4]).Some? ==> CheckpointPath(mission, sprint, VersionOfName(p[4]).value) == Ok(p)
  {
    if IsTemp(p) {
      VersionOfTemp(p[4]);
    } else {
      assert Published(f, files, p);
      var r: Record :| CheckpointPath(r.missionId, r.sprintId, r.version) == Ok(p) && files[p] == f.serialize(EnvelopeOf(f, r));
      PathShape(r.missionId, r.sprintId, r.version);
      VersionOfCheckpoint(r.version);
      assert p[..4][1] == p[1] && p[..4][3] == p[3];
      assert CheckpointPath(mission, sprint, r.version).Ok?;
      PathsIdentifyKeys(r.missionId, r.sprintId, r.version, mission, sprint, r.version);
    }
  }

  lemma AscendingVersions(versions: seq<int>)
    requires NoDuplicates(versions)
    ensures forall i, j :: 0 <= i < j < |SortVersions(versions)| ==> SortVersions(versions)[i] < SortVersions(versions)[j]
    ensures forall v :: v in SortVersions(versions) <==> v in versions
  {
    var s := SortVersions(versions);
    SortBySorts(versions, VersionKey);
    SortByPermutes(versions, VersionKey);
    forall v | v in versions ensures multiset(versions)[v] == 1 { CountOnce(versions, v); }
    forall v ensures v in s <==> v in versions { SortByMembers(versions, VersionKey, v); }
    NoDuplicatesByCount(s);
    forall i, j | 0 <= i < j < |s| ensures s[i] < s[j] {
      assert Leq(VersionKey(s[i]), VersionKey(s[j]));
    }
  }
}
