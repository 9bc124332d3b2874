/**
 The artifact promotion of `scripts/publish_to_site.py` (`publish`): the
 staged chart and stats of one index are copied from `docs/outputs` into
 `docs/charts`, and a metadata sidecar is derived from the stats document.

 The file system is a map from paths to contents plus the set of existing
 directories. JSON parsing and encoding are the `Codec` parameter; the
 current time is a parameter.
 */
module Publish {
  import opened Wrappers
  import opened Json
  import opened Ascii

  type Bytes = seq<bv8>

  /** A file, named by its directory (relative to the repository root) and its file name. */
  datatype Path = Path(dir: string, name: string)

  const OutputsDir: string := "docs/outputs"
  const ChartsDir: string := "docs/charts"

  datatype FileSystem = FileSystem(dirs: set<string>, files: map<Path, Bytes>)

  /** How file contents become JSON documents and back. */
  datatype Codec = Codec(parse: Bytes -> Option<Json>, encode: Json -> Bytes)

  // File names, all derived from the lower-cased key.

  function StagedImage(key: string): Path { Path(OutputsDir, Lower(key) + "_intraday.png") }
  function StagedStats(key: string): Path { Path(OutputsDir, Lower(key) + "_stats.json") }
  function PublicImageName(key: string): string { Lower(key) + "_1d.png" }
  function PublicImage(key: string): Path { Path(ChartsDir, PublicImageName(key)) }
  function PublicStats(key: string): Path { Path(ChartsDir, Lower(key) + "_stats.json") }
  function Sidecar(key: string): Path { Path(ChartsDir, "_cards_" + Lower(key) + ".json") }

  /** The three files a publish may write. */
  function Written(key: string): set<Path>
  {
    {PublicImage(key), PublicStats(key), Sidecar(key)}
  }

  /** The sidecar record. Fields taken from the stats document keep whatever JSON value they hold there. */
  datatype Metadata = Metadata(
    indexKey: string,
    displayLabel: string,
    pctIntraday: Json,
    basis: Json,
    session: Json,
    updatedAt: Json,
    image: string)

  /** The metadata record: the arguments unchanged, four fields looked up in the
      stats document with their defaults, and the public image name. */
  function BuildMetadata(key: string, displayLabel: string, stats: map<string, Json>, now: string): (m: Metadata)
    ensures m.indexKey == key && m.displayLabel == displayLabel
    ensures m.image == Lower(key) + "_1d.png"
    ensures "pct_intraday" in stats ==> m.pctIntraday == stats["pct_intraday"]
    ensures "pct_intraday" !in stats ==> m.pctIntraday == JNum(0.0)
    ensures "basis" in stats ==> m.basis == stats["basis"]
    ensures "basis" !in stats ==> m.basis == JStr("prev_close")
    ensures "session" in stats ==> m.session == stats["session"]
    ensures "session" !in stats ==> m.session == JObj(map[])
    ensures "updated_at" in stats ==> m.updatedAt == stats["updated_at"]
    ensures "updated_at" !in stats ==> m.updatedAt == JStr(now)
  {
    Metadata(
      key,
      displayLabel,
      Get(stats, "pct_intraday", JNum(0.0)),
      Get(stats, "basis", JStr("prev_close")),
      Get(stats, "session", JObj(map[])),
      Get(stats, "updated_at", JStr(now)),
      PublicImageName(key))
  }

  /** The seven keys of the sidecar object. */
  const MetadataKeys: set<string> := {"index_key", "label", "pct_intraday", "basis", "session", "updated_at", "image"}

  /** The sidecar as the JSON object that is written out: exactly the seven keys. */
  function MetadataJson(m: Metadata): (j: Json)
    ensures j.JObj? && j.fields.Keys == MetadataKeys
    ensures j.fields["index_key"] == JStr(m.indexKey)
    ensures j.fields["label"] == JStr(m.displayLabel)
    ensures j.fields["image"] == JStr(m.image)
    ensures j.fields["pct_intraday"] == m.pctIntraday && j.fields["basis"] == m.basis
    ensures j.fields["session"] == m.session && j.fields["updated_at"] == m.updatedAt
  {
    var fields := map[
      "index_key" := JStr(m.indexKey),
      "label" := JStr(m.displayLabel),
      "pct_intraday" := m.pctIntraday,
      "basis" := m.basis,
      "session" := m.session,
      "updated_at" := m.updatedAt,
      "image" := JStr(m.image)];
    JObj(fields)
  }

  /** Reads a sidecar object back into a metadata record: the seven keys must be
      present, and the three string fields must hold strings. */
  function ReadMetadata(j: Json): Option<Metadata>
  {
    if && j.JObj? && MetadataKeys <= j.fields.Keys
       && j.fields["index_key"].JStr? && j.fields["label"].JStr? && j.fields["image"].JStr?
    then Some(Metadata(j.fields["index_key"].s, j.fields["label"].s, j.fields["pct_intraday"],
                       j.fields["basis"], j.fields["session"], j.fields["updated_at"], j.fields["image"].s))
    else None
  }

  /** The sidecar object loses nothing: reading it back gives the record it was built from. */
  lemma MetadataRoundTrip(m: Metadata)
    ensures ReadMetadata(MetadataJson(m)) == Some(m)
  {
  }

  /** How a publish ended. `StatsNotObject` is the exception raised when the stats
      document does not parse to an object, after both copies were made. */
  datatype Status = Published | MissingOutputs | StatsNotObject

  datatype Outcome = Outcome(status: Status, fs: FileSystem)

  /** Both staged inputs of `key` exist. */
  predicate Staged(fs: FileSystem, key: string)
  {
    StagedImage(key) in fs.files && StagedStats(key) in fs.files
  }

  /** `p` exists in `b` exactly when it exists in `a`, with the same contents. */
  ghost predicate SameFile(a: FileSystem, b: FileSystem, p: Path)
  {
    (p in a.files <==> p in b.files) && (p in a.files ==> a.files[p] == b.files[p])
  }

  /** `publish(key, displayLabel)`. */
  function Publish(fs: FileSystem, key: string, displayLabel: string, now: string, codec: Codec): (r: Outcome)
    ensures r.fs.dirs == fs.dirs + {ChartsDir}
    ensures r.status == MissingOutputs <==> !Staged(fs, key)
    ensures r.status == MissingOutputs ==> r.fs.files == fs.files
    ensures r.status != MissingOutputs ==>
              && PublicImage(key) in r.fs.files && r.fs.files[PublicImage(key)] == fs.files[StagedImage(key)]
              && PublicStats(key) in r.fs.files && r.fs.files[PublicStats(key)] == fs.files[StagedStats(key)]
    ensures r.status == Published <==> Staged(fs, key) && codec.parse(fs.files[StagedStats(key)]).Some?
                                       && codec.parse(fs.files[StagedStats(key)]).value.JObj?
    ensures r.status == Published ==>
              && Sidecar(key) in r.fs.files
              && r.fs.files[Sidecar(key)]
                 == codec.encode(MetadataJson(BuildMetadata(key, displayLabel,
                                  codec.parse(fs.files[StagedStats(key)]).value.fields, now)))
    ensures r.status != Published ==> SameFile(fs, r.fs, Sidecar(key))
    ensures forall p :: p !in Written(key) ==> SameFile(fs, r.fs, p)
  {
    var fs1 := fs.(dirs := fs.dirs + {ChartsDir});
    if !Staged(fs, key) then
      Outcome(MissingOutputs, fs1)
    else
      NamesDistinct(key);
      var copied := fs1.files[PublicImage(key) := fs.files[StagedImage(key)]]
                             [PublicStats(key) := fs.files[StagedStats(key)]];
      match codec.parse(fs.files[StagedStats(key)])
      case Some(JObj(stats)) =>
        var meta := BuildMetadata(key, displayLabel, stats, now);
        Outcome(Published, fs1.(files := copied[Sidecar(key) := codec.encode(MetadataJson(meta))]))
      case _ =>
        Outcome(StatsNotObject, fs1.(files := copied))
  }

  // ---------------------------------------------------------------------
  // Properties

  /** The three output names of a key are pairwise distinct, and none is a staging path. */
  lemma NamesDistinct(key: string)
    ensures PublicImage(key) != PublicStats(key)
    ensures PublicImage(key) != Sidecar(key)
    ensures PublicStats(key) != Sidecar(key)
    ensures forall p :: p in Written(key) ==> p.dir == ChartsDir
  {
    assert |PublicImage(key).name| == |key| + 7;
    assert |PublicStats(key).name| == |key| + 11;
    assert |Sidecar(key).name| == |key| + 12;
  }

  /** A missing staged image or stats document aborts with not-found; only the
      charts directory may have been created, and no file changed. */
  lemma MissingInputChangesNoFile(fs: FileSystem, key: string, displayLabel: string, now: string, codec: Codec)
    requires StagedImage(key) !in fs.files || StagedStats(key) !in fs.files
    ensures var r := Publish(fs, key, displayLabel, now, codec);
            r.status == MissingOutputs && r.fs == fs.(dirs := fs.dirs + {ChartsDir})
  {
  }

  /** Staging files are never modified. */
  lemma StagingUntouched(fs: FileSystem, key: string, displayLabel: string, now: string, codec: Codec, p: Path)
    requires p.dir == OutputsDir
    ensures SameFile(fs, Publish(fs, key, displayLabel, now, codec).fs, p)
  {
    NamesDistinct(key);
  }

  /** Two file maps that agree on every path are equal. */
  lemma FilesExtensional(a: FileSystem, b: FileSystem)
    requires forall p :: SameFile(a, b, p)
    ensures a.files == b.files
  {
    assert a.files.Keys == b.files.Keys by {
      forall p | p in a.files ensures p in b.files { assert SameFile(a, b, p); }
      forall p | p in b.files ensures p in a.files { assert SameFile(a, b, p); }
    }
    forall p | p in a.files ensures a.files[p] == b.files[p] { assert SameFile(a, b, p); }
  }

  /** All file names of a key depend on its lower-cased form only. */
  lemma NamesFollowLowerKey(k1: string, k2: string)
    requires Lower(k1) == Lower(k2)
    ensures StagedImage(k1) == StagedImage(k2) && StagedStats(k1) == StagedStats(k2)
    ensures Written(k1) == Written(k2)
  {
  }

  /** Keys that differ only in case name the same files, so a later publish of one,
      at any later time, replaces everything an earlier publish of the other wrote. */
  lemma CaseVariantsShareFiles(fs: FileSystem, k1: string, l1: string, now1: string,
                               k2: string, l2: string, now2: string, codec: Codec)
    requires Lower(k1) == Lower(k2)
    ensures Written(k1) == Written(k2)
    ensures Publish(Publish(fs, k1, l1, now1, codec).fs, k2, l2, now2, codec) == Publish(fs, k2, l2, now2, codec)
  {
    NamesFollowLowerKey(k1, k2);
    NamesDistinct(k2);
    var r1 := Publish(fs, k1, l1, now1, codec);
    var r := Publish(r1.fs, k2, l2, now2, codec);
    var r' := Publish(fs, k2, l2, now2, codec);
    StagingUntouched(fs, k1, l1, now1, codec, StagedImage(k2));
    StagingUntouched(fs, k1, l1, now1, codec, StagedStats(k2));
    assert r.status == r'.status;
    forall p ensures SameFile(r.fs, r'.fs, p) {
      if p !in Written(k2) {
        assert SameFile(fs, r1.fs, p);
        assert SameFile(r1.fs, r.fs, p);
        assert SameFile(fs, r'.fs, p);
      } else if r.status == MissingOutputs {
        assert SameFile(fs, r1.fs, p);
      } else if p == Sidecar(k2) && r.status == StatsNotObject {
        assert SameFile(fs, r1.fs, p);
      }
    }
    FilesExtensional(r.fs, r'.fs);
  }

  /** Publishing is idempotent: running it again on its own result at the same
      current time changes nothing. (At a later time a stats document without
      `updated_at` gives the sidecar the new time.) */
  lemma PublishIdempotent(fs: FileSystem, key: string, displayLabel: string, now: string, codec: Codec)
    ensures var r := Publish(fs, key, displayLabel, now, codec);
            Publish(r.fs, key, displayLabel, now, codec) == r
  {
    CaseVariantsShareFiles(fs, key, displayLabel, now, key, displayLabel, now, codec);
  }

  /** The file names of the repository's own invocation, key "R_BANK9". */
  lemma RBank9Names()
    ensures StagedImage("R_BANK9") == Path(OutputsDir, "r_bank9_intraday.png")
    ensures StagedStats("R_BANK9") == Path(OutputsDir, "r_bank9_stats.json")
    ensures PublicImage("R_BANK9") == Path(ChartsDir, "r_bank9_1d.png")
    ensures PublicStats("R_BANK9") == Path(ChartsDir, "r_bank9_stats.json")
    ensures Sidecar("R_BANK9") == Path(ChartsDir, "_cards_r_bank9.json")
  {
    var k := "r_bank9";
    LowerRBank9();
    assert k + "_intraday.png" == "r_bank9_intraday.png";
    assert k + "_stats.json" == "r_bank9_stats.json";
    assert k + "_1d.png" == "r_bank9_1d.png";
    assert "_cards_" + k + ".json" == "_cards_r_bank9.json";
  }

  lemma LowerRBank9()
    ensures Lower("R_BANK9") == "r_bank9"
  {
    assert Lower("R_BANK9") == "r_bank9";
  }

  /** The repository's own invocation, key "R_BANK9" and label "R-BANK9", with a stats
      document holding only `pct_intraday` 1.2 and `basis` "prev_close": the key is kept
      as given in the sidecar, the image name is lower-cased, and the session and update
      time take their defaults. */
  lemma RBank9Publish(fs: FileSystem, now: string, codec: Codec)
    requires Staged(fs, "R_BANK9")
    requires codec.parse(fs.files[StagedStats("R_BANK9")])
             == Some(JObj(map["pct_intraday" := JNum(1.2), "basis" := JStr("prev_close")]))
    ensures Publish(fs, "R_BANK9", "R-BANK9", now, codec).status == Published
    ensures Publish(fs, "R_BANK9", "R-BANK9", now, codec).fs.files[Sidecar("R_BANK9")]
            == codec.encode(MetadataJson(Metadata("R_BANK9", "R-BANK9", JNum(1.2), JStr("prev_close"),
                                                  JObj(map[]), JStr(now), "r_bank9_1d.png")))
  {
    LowerRBank9();
    var stats := map["pct_intraday" := JNum(1.2), "basis" := JStr("prev_close")];
    assert "session" !in stats && "updated_at" !in stats;
    assert BuildMetadata("R_BANK9", "R-BANK9", stats, now)
        == Metadata("R_BANK9", "R-BANK9", JNum(1.2), JStr("prev_close"), JObj(map[]), JStr(now), "r_bank9_1d.png");
  }
}
