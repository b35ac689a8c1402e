/** The byte strings fed to the hasher for a snapshot manifest (src/domain/snapshot.rs) and for an
    oracle (src/minimize/cache.rs). A hash stands for its pre-image; the theorems say that the
    pre-image determines what was hashed. Text is its UTF-8 bytes. */
module Encoding {
  import opened Common

  type Text = seq<Byte>

  datatype FileType = Regular | Directory | Symlink

  /** What `capture` records per path; the `path` field repeats the map key and is not hashed. */
  datatype FileState = FileState(fileType: FileType, sha256: Option<Text>, size: nat, unixMode: Option<nat>,
                                 symlinkTarget: Option<Text>)

  type Manifest = map<Text, FileState>

  datatype OracleSpec = OracleSpec(command: Text, timeoutMs: nat)

  const SNAPSHOT_PREFIX: Text := [102, 105, 120, 116, 114, 97, 99, 101, 45, 115, 110, 97, 112, 115, 104, 111, 116, 45, 118, 49, 0]
  const ORACLE_PREFIX: Text := [102, 105, 120, 116, 114, 97, 99, 101, 45, 111, 114, 97, 99, 108, 101, 45, 118, 49, 0]

  function Power256(k: nat): (p: nat)
    ensures p > 0
  {
    if k == 0 then 1 else 256 * Power256(k - 1)
  }

  /** `to_le_bytes` of a `k`-byte unsigned integer. */
  function LittleEndian(n: nat, k: nat): (r: Text)
    ensures |r| == k
  {
    if k == 0 then [] else [n % 256] + LittleEndian(n / 256, k - 1)
  }

  /** What the bytes say when they are read with the least significant one first. */
  function Value(bytes: Text): nat { if bytes == [] then 0 else bytes[0] + 256 * Value(bytes[1..]) }

  lemma {:induction false} LittleEndianReads(n: nat, k: nat)
    requires n < Power256(k)
    ensures Value(LittleEndian(n, k)) == n
  {
    if k > 0 { LittleEndianReads(n / 256, k - 1); }
  }

  function Prefixed(t: Text): Text { LittleEndian(|t|, 8) + t }

  function OptionalText(t: Option<Text>): Text {
    match t
    case Some(text) => [1] + Prefixed(text)
    case None => [0]
  }

  function OptionalMode(mode: Option<nat>): Text {
    match mode
    case Some(m) => [1] + LittleEndian(m, 4)
    case None => [0]
  }

  function TypeTag(t: FileType): Byte {
    match t
    case Regular => 1
    case Directory => 2
    case Symlink => 3
  }

  function StateBytes(s: FileState): Text {
    [TypeTag(s.fileType)] + (OptionalText(s.sha256) + (LittleEndian(s.size, 8)
      + (OptionalMode(s.unixMode) + OptionalText(s.symlinkTarget))))
  }

  function RecordBytes(path: Text, s: FileState): Text { Prefixed(path) + StateBytes(s) }

  function Records(files: Manifest, order: seq<Text>): Text
    requires forall p | p in order :: p in files
  {
    if order == [] then [] else RecordBytes(order[0], files[order[0]]) + Records(files, order[1..])
  }

  function ManifestBytes(files: Manifest, order: seq<Text>): Text
    requires forall p | p in order :: p in files
  {
    SNAPSHOT_PREFIX + Records(files, order)
  }

  function OracleBytes(o: OracleSpec): Text {
    ORACLE_PREFIX + (Prefixed(o.command) + LittleEndian(o.timeoutMs, 8))
  }

  // ---- the machine widths: lengths and sizes are u64, modes u32 ----

  ghost predicate FitsText(t: Text) { |t| < Power256(8) }

  ghost predicate FitsState(s: FileState) {
    && (s.sha256.Some? ==> FitsText(s.sha256.value)) && s.size < Power256(8)
    && (s.unixMode.Some? ==> s.unixMode.value < Power256(4))
    && (s.symlinkTarget.Some? ==> FitsText(s.symlinkTarget.value))
  }

  ghost predicate Fits(files: Manifest) {
    forall p | p in files :: FitsText(p) && FitsState(files[p])
  }

  /** `order` walks the keys of the map, each once (the map's own order, whatever it is). */
  ghost predicate Walks(order: seq<Text>, files: Manifest) {
    Distinct(order) && forall p :: p in order <==> p in files
  }

  // ---- every field is self-delimiting ----

  lemma {:induction false} LittleEndianInjective(a: nat, b: nat, k: nat)
    requires a < Power256(k) && b < Power256(k)
    requires LittleEndian(a, k) == LittleEndian(b, k)
    ensures a == b
  {
    if k > 0 {
      assert LittleEndian(a, k)[0] == LittleEndian(b, k)[0];
      assert LittleEndian(a, k)[1..] == LittleEndian(b, k)[1..];
      LittleEndianInjective(a / 256, b / 256, k - 1);
    }
  }

  lemma SplitAt(a: Text, x: Text, b: Text, y: Text)
    requires |a| == |b| && a + x == b + y
    ensures a == b && x == y
  {
    assert a == (a + x)[..|a|] && b == (b + y)[..|b|];
    assert x == (a + x)[|a|..] && y == (b + y)[|b|..];
  }

  lemma NumberDelimits(a: nat, x: Text, b: nat, y: Text, k: nat)
    requires a < Power256(k) && b < Power256(k)
    requires LittleEndian(a, k) + x == LittleEndian(b, k) + y
    ensures a == b && x == y
  {
    SplitAt(LittleEndian(a, k), x, LittleEndian(b, k), y);
    LittleEndianInjective(a, b, k);
  }

  lemma TextDelimits(a: Text, x: Text, b: Text, y: Text)
    requires FitsText(a) && FitsText(b)
    requires Prefixed(a) + x == Prefixed(b) + y
    ensures a == b && x == y
  {
    Regroup(LittleEndian(|a|, 8), a, x);
    Regroup(LittleEndian(|b|, 8), b, y);
    NumberDelimits(|a|, a + x, |b|, b + y, 8);
    SplitAt(a, x, b, y);
  }

  lemma OptionalTextDelimits(a: Option<Text>, x: Text, b: Option<Text>, y: Text)
    requires (a.Some? ==> FitsText(a.value)) && (b.Some? ==> FitsText(b.value))
    requires OptionalText(a) + x == OptionalText(b) + y
    ensures a == b && x == y
  {
    assert (OptionalText(a) + x)[0] == (OptionalText(b) + y)[0];
    if a.Some? {
      Regroup([1], Prefixed(a.value), x);
      Regroup([1], Prefixed(b.value), y);
      SplitAt([1], Prefixed(a.value) + x, [1], Prefixed(b.value) + y);
      TextDelimits(a.value, x, b.value, y);
    } else {
      SplitAt([0], x, [0], y);
    }
  }

  lemma OptionalModeDelimits(a: Option<nat>, x: Text, b: Option<nat>, y: Text)
    requires (a.Some? ==> a.value < Power256(4)) && (b.Some? ==> b.value < Power256(4))
    requires OptionalMode(a) + x == OptionalMode(b) + y
    ensures a == b && x == y
  {
    assert (OptionalMode(a) + x)[0] == (OptionalMode(b) + y)[0];
    if a.Some? {
      Regroup([1], LittleEndian(a.value, 4), x);
      Regroup([1], LittleEndian(b.value, 4), y);
      SplitAt([1], LittleEndian(a.value, 4) + x, [1], LittleEndian(b.value, 4) + y);
      NumberDelimits(a.value, x, b.value, y, 4);
    } else {
      SplitAt([0], x, [0], y);
    }
  }

  lemma Regroup(a: Text, b: Text, c: Text)
    ensures (a + b) + c == a + (b + c)
  {}

  lemma StateDelimits(a: FileState, x: Text, b: FileState, y: Text)
    requires FitsState(a) && FitsState(b)
    requires StateBytes(a) + x == StateBytes(b) + y
    ensures a == b && x == y
  {
    var a3, b3 := OptionalText(a.symlinkTarget), OptionalText(b.symlinkTarget);
    var a2, b2 := OptionalMode(a.unixMode) + a3, OptionalMode(b.unixMode) + b3;
    var a1, b1 := LittleEndian(a.size, 8) + a2, LittleEndian(b.size, 8) + b2;
    var a0, b0 := OptionalText(a.sha256) + a1, OptionalText(b.sha256) + b1;
    Regroup([TypeTag(a.fileType)], a0, x);
    Regroup([TypeTag(b.fileType)], b0, y);
    SplitAt([TypeTag(a.fileType)], a0 + x, [TypeTag(b.fileType)], b0 + y);
    assert TypeTag(a.fileType) == [TypeTag(a.fileType)][0] == [TypeTag(b.fileType)][0];
    Regroup(OptionalText(a.sha256), a1, x);
    Regroup(OptionalText(b.sha256), b1, y);
    OptionalTextDelimits(a.sha256, a1 + x, b.sha256, b1 + y);
    Regroup(LittleEndian(a.size, 8), a2, x);
    Regroup(LittleEndian(b.size, 8), b2, y);
    NumberDelimits(a.size, a2 + x, b.size, b2 + y, 8);
    Regroup(OptionalMode(a.unixMode), a3, x);
    Regroup(OptionalMode(b.unixMode), b3, y);
    OptionalModeDelimits(a.unixMode, a3 + x, b.unixMode, b3 + y);
    OptionalTextDelimits(a.symlinkTarget, x, b.symlinkTarget, y);
  }

  lemma RecordDelimits(p: Text, a: FileState, x: Text, q: Text, b: FileState, y: Text)
    requires FitsText(p) && FitsState(a) && FitsText(q) && FitsState(b)
    requires RecordBytes(p, a) + x == RecordBytes(q, b) + y
    ensures p == q && a == b && x == y
  {
    Regroup(Prefixed(p), StateBytes(a), x);
    Regroup(Prefixed(q), StateBytes(b), y);
    TextDelimits(p, StateBytes(a) + x, q, StateBytes(b) + y);
    StateDelimits(a, x, b, y);
  }

  lemma RecordNonEmpty(p: Text, a: FileState)
    ensures |RecordBytes(p, a)| > 0
  {}

  /** Equal record strings list the same paths with the same states. */
  lemma {:induction false} RecordsInjective(m: Manifest, s: seq<Text>, n: Manifest, t: seq<Text>)
    requires Fits(m) && Fits(n)
    requires (forall p | p in s :: p in m) && (forall p | p in t :: p in n)
    requires Records(m, s) == Records(n, t)
    ensures s == t && forall p | p in s :: m[p] == n[p]
  {
    hide RecordBytes, FitsText, FitsState;
    if s != [] { RecordNonEmpty(s[0], m[s[0]]); }
    if t != [] { RecordNonEmpty(t[0], n[t[0]]); }
    if s != [] && t != [] {
      RecordDelimits(s[0], m[s[0]], Records(m, s[1..]), t[0], n[t[0]], Records(n, t[1..]));
      RecordsInjective(m, s[1..], n, t[1..]);
      assert s == [s[0]] + s[1..] && t == [t[0]] + t[1..];
    }
  }

  /** The string hashed for a manifest determines the manifest: all paths, all hashed fields. */
  lemma ManifestBytesInjective(m: Manifest, s: seq<Text>, n: Manifest, t: seq<Text>)
    requires Fits(m) && Fits(n) && Walks(s, m) && Walks(t, n)
    requires ManifestBytes(m, s) == ManifestBytes(n, t)
    ensures m == n
  {
    SplitAt(SNAPSHOT_PREFIX, Records(m, s), SNAPSHOT_PREFIX, Records(n, t));
    RecordsInjective(m, s, n, t);
    assert m.Keys == n.Keys;
  }

  /** The string hashed for an oracle determines its command and timeout. */
  lemma OracleBytesInjective(a: OracleSpec, b: OracleSpec)
    requires FitsText(a.command) && FitsText(b.command) && a.timeoutMs < Power256(8) && b.timeoutMs < Power256(8)
    requires OracleBytes(a) == OracleBytes(b)
    ensures a == b
  {
    var x, y := LittleEndian(a.timeoutMs, 8), LittleEndian(b.timeoutMs, 8);
    SplitAt(ORACLE_PREFIX, Prefixed(a.command) + x, ORACLE_PREFIX, Prefixed(b.command) + y);
    TextDelimits(a.command, x, b.command, y);
    LittleEndianInjective(a.timeoutMs, b.timeoutMs, 8);
  }

  /** No manifest and oracle are ever hashed from the same string. */
  lemma DomainsDisjoint(m: Manifest, s: seq<Text>, o: OracleSpec)
    requires forall p | p in s :: p in m
    ensures ManifestBytes(m, s) != OracleBytes(o)
  {
    assert ManifestBytes(m, s)[9] == 115;
    assert OracleBytes(o)[9] == 111;
  }

  // ---- the code ----

  class Hasher {
    var fed: Text

    constructor ()
      ensures fed == []
    {
      fed := [];
    }

    method Update(bytes: Text)
      modifies this
      ensures fed == old(fed) + bytes
    {
      fed := fed + bytes;
    }

    method UpdateLenPrefixed(value: Text)
      modifies this
      ensures fed == old(fed) + Prefixed(value)
    {
      Update(LittleEndian(|value|, 8));
      Update(value);
    }

    method UpdateOptionalText(value: Option<Text>)
      modifies this
      ensures fed == old(fed) + OptionalText(value)
    {
      match value {
        case Some(text) => Update([1]); UpdateLenPrefixed(text);
        case None => Update([0]);
      }
    }

    method UpdateOptionalMode(mode: Option<nat>)
      modifies this
      ensures fed == old(fed) + OptionalMode(mode)
    {
      match mode {
        case Some(bits) => Update([1]); Update(LittleEndian(bits, 4));
        case None => Update([0]);
      }
    }

    method UpdateRecord(path: Text, state: FileState)
      modifies this
      ensures fed == old(fed) + RecordBytes(path, state)
    {
      hide LittleEndian, OptionalText, OptionalMode, Prefixed;
      UpdateLenPrefixed(path);
      Update([TypeTag(state.fileType)]);
      UpdateOptionalText(state.sha256);
      Update(LittleEndian(state.size, 8));
      UpdateOptionalMode(state.unixMode);
      UpdateOptionalText(state.symlinkTarget);
      Chain(old(fed), Prefixed(path), [TypeTag(state.fileType)], OptionalText(state.sha256),
            LittleEndian(state.size, 8), OptionalMode(state.unixMode), OptionalText(state.symlinkTarget));
    }
  }

  lemma Chain(f: Text, a: Text, b: Text, c: Text, d: Text, e: Text, g: Text)
    ensures f + a + b + c + d + e + g == f + (a + (b + (c + (d + (e + g)))))
  {
    Regroup(f + a + b + c + d, e, g);
    Regroup(f + a + b + c, d, e + g);
    Regroup(f + a + b, c, d + (e + g));
    Regroup(f + a, b, c + (d + (e + g)));
    Regroup(f, a, b + (c + (d + (e + g))));
  }

  method HashManifest(files: Manifest, order: seq<Text>) returns (fed: Text)
    requires forall p | p in order :: p in files
    ensures fed == ManifestBytes(files, order)
  {
    hide RecordBytes;
    var hasher := new Hasher();
    hasher.Update(SNAPSHOT_PREFIX);
    for i := 0 to |order|
      invariant hasher.fed == SNAPSHOT_PREFIX + Records(files, order[..i])
    {
      var path := order[i];
      hasher.UpdateRecord(path, files[path]);
      RecordsSnoc(files, order[..i], path);
      Regroup(SNAPSHOT_PREFIX, Records(files, order[..i]), RecordBytes(path, files[path]));
      assert order[..i + 1] == order[..i] + [path];
    }
    assert order[..|order|] == order;
    fed := hasher.fed;
  }

  lemma {:induction false} RecordsSnoc(files: Manifest, front: seq<Text>, last: Text)
    requires last in files && forall p | p in front :: p in files
    ensures Records(files, front + [last]) == Records(files, front) + RecordBytes(last, files[last])
  {
    hide RecordBytes;
    if front == [] {
      assert front + [last] == [last];
      assert Records(files, [last][1..]) == [];
    } else {
      RecordsSnoc(files, front[1..], last);
      assert (front + [last])[1..] == front[1..] + [last];
      Regroup(RecordBytes(front[0], files[front[0]]), Records(files, front[1..]), RecordBytes(last, files[last]));
    }
  }

  method HashOracle(oracle: OracleSpec) returns (fed: Text)
    ensures fed == OracleBytes(oracle)
  {
    var hasher := new Hasher();
    hasher.Update(ORACLE_PREFIX);
    hasher.Update(LittleEndian(|oracle.command|, 8));
    hasher.Update(oracle.command);
    hasher.Update(LittleEndian(oracle.timeoutMs, 8));
    fed := hasher.fed;
  }
}
