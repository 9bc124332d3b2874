/**
 The persisted state of `scripts/moi/calc_moi.py`: `load_prev` and
 `save_state`. The state file is modelled by what reading it yields; JSON
 text and the file system itself are not modelled.
 */
module MoiState {
  import opened Wrappers
  import opened Json

  /** The score assumed when no usable previous value exists. */
  const DefaultPrev: real := 50.0

  /** What reading the state file yields. */
  datatype StateFile =
    | Absent              // the file does not exist
    | Unreadable          // reading or JSON parsing raised
    | Stored(doc: Json)   // the parsed document, of whatever shape

  /** Python's `float(x)` on a parsed JSON value; `None` where it raises. */
  function FloatOf(j: Json): (r: Option<real>)
    ensures j.JNum? ==> r == Some(j.n)
    ensures j.JBool? ==> r == Some(if j.b then 1.0 else 0.0)
    ensures !j.JNum? && !j.JBool? ==> r == None
  {
    match j
    case JNum(x) => Some(x)
    case JBool(b) => Some(if b then 1.0 else 0.0)
    case _ => None
  }

  /** The state file holds an object whose "value" entry converts to `v`. */
  ghost predicate HoldsValue(f: StateFile, v: real)
  {
    && f.Stored?
    && f.doc.JObj?
    && "value" in f.doc.fields
    && FloatOf(f.doc.fields["value"]) == Some(v)
  }

  /** `load_prev`: the stored value when the file holds one, otherwise 50.0.
      A missing or unreadable file, a document that is not an object, a
      missing "value" key and a value `float` rejects all fall back to 50.0. */
  function LoadPrev(f: StateFile): (r: real)
    ensures forall v :: HoldsValue(f, v) ==> r == v
    ensures (forall v :: !HoldsValue(f, v)) ==> r == DefaultPrev
  {
    match f
    case Stored(JObj(fields)) =>
      if "value" in fields then
        var o := FloatOf(fields["value"]);
        assert o.Some? ==> HoldsValue(f, o.value);
        o.GetOr(DefaultPrev)
      else DefaultPrev
    case _ => DefaultPrev
  }

  /** `save_state`: the file then holds `{"value": v}`. */
  function SaveState(v: real): (f: StateFile)
    ensures HoldsValue(f, v)
  {
    Stored(JObj(map["value" := JNum(v)]))
  }

  // ---------------------------------------------------------------------
  // Properties

  /** What `save_state` writes, `load_prev` reads back unchanged. */
  lemma SaveLoadRoundTrip(v: real)
    ensures LoadPrev(SaveState(v)) == v
  {
  }

  /** The recoverable-load cases all yield exactly 50.0. */
  lemma LoadPrevFallsBack(f: StateFile)
    requires f.Absent? || f.Unreadable? || (f.Stored? && !f.doc.JObj?)
             || (f.Stored? && f.doc.JObj? && "value" !in f.doc.fields)
    ensures LoadPrev(f) == DefaultPrev
  {
  }
}
