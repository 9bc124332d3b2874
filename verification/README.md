# Market Overheat Index and chart publishing, modelled in Dafny

This project models the two sequential cores of the Sakura Index site
scripts:

- **The Market Overheat Index (MOI) scoring step** of
  `scripts/moi/calc_moi.py`. It loads the previous score from the state
  file, falling back to 50.0. It decays the score toward the baseline 50:
  at rate 0.08 on Saturday and Sunday, and at rate 0.05 plus a fixed +0.2
  of "noise" in z on other days. It then rescales through `normalize`,
  which clamps to [0, 100]. Finally `main` rounds the value and the delta
  to one decimal, keeps at most two factors, and attaches one of five
  labels.
- **The artifact promotion** `publish` of `scripts/publish_to_site.py`.
  The staged `<key>_intraday.png` and `<key>_stats.json` in `docs/outputs`
  are copied verbatim into `docs/charts` as `<key>_1d.png` and
  `<key>_stats.json`, where `<key>` is the lower-cased index key. A sidecar
  `_cards_<key>.json` is then derived from the stats document, with
  defaults for missing fields.

Arithmetic is over exact reals. The weekday, the current time and the event
contribution are parameters, as is the JSON codec. The file system is a map
from paths to contents plus a set of directories, and `publish` is a pure
state transition on it.

Files:
- `wrappers.dfy`: `Option`.
- `json.dfy`: parsed JSON values and Python's `dict.get`.
- `moi_score.dfy`: clamp, normalize, the calendar policy, the decay and `calc_mvp_today`.
- `moi_label.dfy`: the five-bucket label.
- `moi_state.dfy`: `load_prev` and `save_state`.
- `moi_run.dfy`: `main`, with rounding, the factors and the label.
- `ascii.dfy`: `str.lower` on ASCII.
- `publish.dfy`: `publish`.

Behaviour of the scripts worth noting:
- The label has **five** buckets whose lower-inclusive thresholds are 20,
  40, 60 and 75: 静穏, やや冷静, 平常, やや過熱, 過熱. There is no bucket
  at 90 or above.
- `save_state` is a plain overwrite with no temp-file-and-rename step.
- `publish` copies both files **before** it parses the stats document. A
  stats file that does not parse to a JSON object therefore leaves both
  copies in place without a sidecar (status `StatsNotObject`). A publish is
  not all-or-nothing.
- `publish` defaults `pct_intraday` to 0.0, `basis` to "prev_close",
  `session` to `{}` and `updated_at` to the current time.
- The code has no snapshot mode and no range check on the loaded value.
  A state file holding 200 is loaded as 200, and only the clamp in
  `normalize` brings the score back into range.
- `main` labels the **unrounded** score but publishes the value rounded to
  one decimal. A score of 74.96 is therefore shown as 75.0 next to the
  label やや過熱 (`MoiRun.DisplayedValueMayCrossThreshold`).
- In the code the event contribution `pseudo_event_z` is a hard-coded 0.0.
  The model takes it as the parameter `eventZ`; `StubEventZ` is the code's
  value.

## Model

| member | source | states |
|---|---|---|
| MoiScore.Clamp | scripts/moi/calc_moi.py:19 | the result lies in [lo, hi] whenever lo <= hi; it is x itself when x is in range, lo below the range and hi above it; with an empty range (hi < lo) Python's `max(lo, min(hi, x))` yields lo |
| MoiScore.ClampIdempotent | scripts/moi/calc_moi.py:19 | clamping an already clamped value changes nothing |
| MoiScore.ClampMonotone | scripts/moi/calc_moi.py:19 | clamping preserves order |
| MoiScore.Normalize | scripts/moi/calc_moi.py:33-35 | for every z the score lies in [0, 100]; it is 50 + 15z when that is in range, 0 below and 100 above |
| MoiScore.NormalizeToZRoundTrip | scripts/moi/calc_moi.py:33-35 | rescaling a score in [0, 100] to z = (score-50)/15 and normalising it back returns the same score |
| MoiScore.NormalizeMonotone | scripts/moi/calc_moi.py:33-35 | a larger z never gives a smaller score |
| MoiScore.Policy | scripts/moi/calc_moi.py:48-53 | the decay rate is a fraction in [0, 1]: 0.08 with no noise on weekday 5 or 6, 0.05 with noise 0.2 otherwise |
| MoiScore.Cool | scripts/moi/calc_moi.py:57 | the cooled value's gap to the baseline 50 is the previous gap times 1 - decay |
| MoiScore.CoolStaysOnSegment | scripts/moi/calc_moi.py:57 | with a rate in [0, 1] the cooled value lies between prev and 50, and its distance to 50 is (1 - decay) times the old distance, so it never grows |
| MoiScore.CalcMvpToday | scripts/moi/calc_moi.py:37-60 | the score is the cooled previous value plus 15 times (eventZ + noise), clamped to [0, 100], for any previous value including one outside the scale; exactly one factor is returned, and it is the no-event factor exactly when abs(eventZ) < 0.01, otherwise the CPI factor |
| MoiScore.WeekendIsPureDecay | scripts/moi/calc_moi.py:44-59 | at the weekend with no event, and prev in [0, 100], the score is exactly the cooled value: the normalisation undoes the rescaling |
| MoiScore.WeekdayAddsThreePoints | scripts/moi/calc_moi.py:51-59 | on other days with no event, the +0.2 noise in z adds exactly 3 points to the cooled value, and the result is still clamped to [0, 100] |
| MoiScore.WeekendFromAboveScaleSaturates | scripts/moi/calc_moi.py:48-59 | a stored 200 cools to 188 at the weekend and is clamped to 100 |
| MoiScore.WeekendBaselineIsFixedPoint | scripts/moi/calc_moi.py:48-59 | a weekend run from 50 returns 50 |
| MoiScore.WeekdayFromBaselineIsFiftyThree | scripts/moi/calc_moi.py:51-59 | a weekday run from 50 with no event returns 53 |
| MoiScore.WeekendStep | scripts/moi/calc_moi.py:48-59 | one weekend run keeps a score in [0, 100] and multiplies its distance to 50 by 0.92 |
| MoiScore.WeekendRunsStayInRange | scripts/moi/calc_moi.py:48-59 | any number of consecutive weekend runs from a score in [0, 100] stays in [0, 100] |
| MoiScore.CoolRunsGeometric | scripts/moi/calc_moi.py:57 | n applications of the weekend decay leave a gap to 50 of 0.92^n times the starting gap |
| MoiScore.WeekendRunsAreDecay | scripts/moi/calc_moi.py:48-59 | n weekend runs from a score in [0, 100] equal n applications of the pure decay |
| MoiScore.WeekendRunsConverge | scripts/moi/calc_moi.py:48-59 | after n weekend runs the score is 50 + 0.92^n (prev - 50): it converges to the baseline from the same side |
| MoiScore.WeekendRunsNonIncreasing | scripts/moi/calc_moi.py:48-59 | the distance to 50 never grows from one weekend run to the next, from any stored value, including one outside [0, 100] such as 200 |
| MoiLabel.LabelOf | scripts/moi/calc_moi.py:74-75 | the label string is the text of a bucket exactly when the value lies in that bucket's interval |
| MoiLabel.ClassifyIsBucket | scripts/moi/calc_moi.py:74-75 | the chained conditional picks bucket l exactly when the value lies in l's interval: below 20, [20, 40), [40, 60), [60, 75), 75 and above |
| MoiLabel.BucketsPartition | scripts/moi/calc_moi.py:74-75 | every value lies in exactly one bucket, with no gap and no overlap; each threshold belongs to the higher bucket |
| MoiLabel.ClassifyMonotone | scripts/moi/calc_moi.py:74-75 | a larger value never gets a calmer label |
| MoiLabel.TextInjective | scripts/moi/calc_moi.py:74-75 | the five label texts are distinct, so the string identifies the bucket |
| MoiState.FloatOf | scripts/moi/calc_moi.py:25 | Python's `float` on a parsed value: a number is kept, a boolean becomes 1.0 or 0.0, and null, arrays and objects raise; strings are treated as raising too (see Left out) |
| MoiState.LoadPrev | scripts/moi/calc_moi.py:21-28 | the result is the stored value whenever the file holds an object whose "value" converts; in every other case it is exactly 50.0 |
| MoiState.SaveState | scripts/moi/calc_moi.py:30-31 | the written file holds an object whose "value" is v |
| MoiState.SaveLoadRoundTrip | scripts/moi/calc_moi.py:21-31 | `load_prev` reads back exactly what `save_state` wrote |
| MoiState.LoadPrevFallsBack | scripts/moi/calc_moi.py:21-28 | an absent or unreadable file, a document that is not an object, or a missing "value" key all yield exactly 50.0 |
| MoiRun.RoundHalfEven | scripts/moi/calc_moi.py:67 | the result is an integer within 1/2 of x, and on a tie it is the even neighbour |
| MoiRun.RoundTenth | scripts/moi/calc_moi.py:67 | `round(x, 1)`: a whole number of tenths within 0.05 of x |
| MoiRun.TakeFactors | scripts/moi/calc_moi.py:72 | `factors[:2]` is the prefix of length min(2, length): exactly the first two elements of a longer list, the whole list otherwise |
| MoiRun.RunMain | scripts/moi/calc_moi.py:62-79 | the unrounded score is the scoring step's result on the loaded previous value, lies in [0, 100] and is what the next load returns; the published value is that score rounded to tenths and stays in [0, 100]; the delta is within 0.05 of score minus prev; there is one factor, the no-event factor when abs(eventZ) < 0.01 and 米CPI上振れ otherwise; the time is passed through; the label is the score's label |
| MoiRun.LabelDependsOnlyOnScore | scripts/moi/calc_moi.py:74-75 | two runs with the same score carry the same label, whatever state, weekday or time produced them |
| MoiRun.RunsChain | scripts/moi/calc_moi.py:63-79 | the next run starts from the unrounded score the previous run saved |
| MoiRun.FirstWeekendRunKeepsBaseline | scripts/moi/calc_moi.py:62-79 | with no state file, a weekend run gives value 50.0, delta 0.0, the no-event factor and the label 平常 |
| MoiRun.WeekdayRunFromBaseline | scripts/moi/calc_moi.py:62-79 | from a stored 50, a weekday run gives value 53.0, delta 3.0 and the label 平常 |
| MoiRun.WeekendRunFromSeventy | scripts/moi/calc_moi.py:62-79 | from a stored 70, a weekend run gives value 68.4, delta -1.6 and the label やや過熱 |
| MoiRun.DisplayedValueMayCrossThreshold | scripts/moi/calc_moi.py:70-75 | 74.96 is published as 75.0 but labelled やや過熱, while 75.0 itself is labelled 過熱 |
| Ascii.LowerChar | scripts/publish_to_site.py:25 | upper-case ASCII letters move to lower case by +32; every other character is kept; the result is never upper case |
| Ascii.Lower | scripts/publish_to_site.py:25-28 | `key.lower()` has the key's length, and each character is the lower-case form of the key's character at the same position |
| Ascii.LowerIsLowerCase | scripts/publish_to_site.py:25-28 | a lower-cased key contains no upper-case letter |
| Ascii.LowerFixesLowerCase | scripts/publish_to_site.py:25-28 | a key without upper-case letters is its own lower-case form |
| Ascii.LowerIdempotent | scripts/publish_to_site.py:25-28 | lower-casing twice is lower-casing once |
| Publish.BuildMetadata | scripts/publish_to_site.py:37-45 | index_key and label are the arguments unchanged, and index_key is not lower-cased; image is lower(key) + "_1d.png"; pct_intraday, basis, session and updated_at are the stats document's values when present, and otherwise 0.0, "prev_close", {} and the supplied time |
| Publish.MetadataJson | scripts/publish_to_site.py:37-48 | the sidecar object has exactly the seven keys index_key, label, pct_intraday, basis, session, updated_at and image; index_key, label and image hold the record's strings and the other four hold the record's values unchanged |
| Publish.MetadataRoundTrip | scripts/publish_to_site.py:37-48 | reading the sidecar object back gives exactly the metadata record it was built from |
| Publish.Publish | scripts/publish_to_site.py:19-50 | the charts directory exists afterwards; publish fails with not-found exactly when a staged input is missing, and then no file changes; otherwise both public files hold exactly the staged contents; the sidecar is written exactly when the stats parse to an object, and then holds the encoded metadata; no path outside the three outputs changes |
| Publish.NamesDistinct | scripts/publish_to_site.py:25-47 | the public image, public stats and sidecar names are pairwise distinct, and all three lie in the charts directory |
| Publish.MissingInputChangesNoFile | scripts/publish_to_site.py:23-31 | a missing image or stats input gives the not-found status; the only change is that the charts directory now exists |
| Publish.StagingUntouched | scripts/publish_to_site.py:33-50 | no file in the staging directory is created, changed or removed |
| Publish.NamesFollowLowerKey | scripts/publish_to_site.py:25-28 | keys with the same lower-case form read the same inputs and write the same outputs |
| Publish.CaseVariantsShareFiles | scripts/publish_to_site.py:25-50 | a later publish of a key, at any later time, fully supersedes an earlier publish of any key with the same lower-case form |
| Publish.PublishIdempotent | scripts/publish_to_site.py:19-50 | publishing again at the same current time on the result of a publish changes nothing |
| Publish.RBank9Names | scripts/publish_to_site.py:54 | for key "R_BANK9" the inputs are r_bank9_intraday.png and r_bank9_stats.json, and the outputs are r_bank9_1d.png, r_bank9_stats.json and _cards_r_bank9.json |
| Publish.RBank9Publish | scripts/publish_to_site.py:37-54 | key "R_BANK9" with label "R-BANK9" and stats {pct_intraday: 1.2, basis: "prev_close"} publishes a sidecar with index_key "R_BANK9", image "r_bank9_1d.png", session {} and the supplied time |

## Left out

- Clock and time zone: `dt.datetime.now(JST)`, `weekday()`, `strftime` and `jst_now_iso` are replaced by the `weekday` and `now` parameters. The source evaluates `jst_now_iso()` even when `updated_at` is present; that call has no effect other than reading the clock.
- Floating point: all arithmetic is over exact reals, so IEEE rounding in `prev*(1-decay) + 50*decay` and in `(cooled-50)/15` is not modelled. Neither are NaN and infinities, which Python's `json.loads` accepts in the state file.
- MoiRun.RoundTenth: this is round-half-even on the exact decimal value. Python's `round(x, 1)` rounds the binary double, so the two can differ on decimal ties that are not exact in binary (0.15 and the like).
- MoiState.FloatOf: a string is always treated as unconvertible, but Python's `float` accepts numeric strings such as "12.5", "nan" and "inf". A JSON integer beyond the double range makes Python's `float` raise OverflowError; the model keeps the number. Both follow from modelling numbers as exact reals and not parsing strings.
- MoiState.LoadPrev: a "value" stored as a numeric string such as "12.5" is converted by Python's `float` but falls back to 50.0 in the model, because string-to-number parsing is not modelled.
- JSON text: `json.loads`, `json.dumps` and their formatting are abstract. The state file is modelled by what reading it yields, and the publisher takes a `Codec` of parse and encode functions.
- File I/O in `main`: writing `data/moi.json` and creating `data/` are not modelled. `RunMain` returns the reading and the state file it writes.
- Console output (`print`) is not modelled.
- Ascii.Lower: only ASCII letters are lower-cased. Python's `str.lower` also maps non-ASCII letters, which this model keeps unchanged.
- Ascii.LowerChar: a non-ASCII capital letter is kept unchanged, where Python's `str.lower` maps it to its lower-case form.
- Publish paths are fixed relative directories. The source resolves `docs/outputs` and `docs/charts` from the script's own location.
- Publish.StagingUntouched: keys are taken as plain file names without '/' or '..'. In the source a key such as "../outputs/x" makes the image copy land in the staging directory, and the stats copy then raises `shutil.SameFileError`. A key such as "a/b" makes `copy2` raise FileNotFoundError when `docs/charts/a` is missing.
- Publish.NamesDistinct: "all three lie in the charts directory" holds only for keys without '/' or '..'. In the source, a key such as "../outputs/x" resolves the public image to `docs/outputs/x_1d.png`.
- Publish.Publish: every write is assumed to succeed, and only the charts directory is tracked. The model leaves out three source behaviours. `mkdir` raises FileExistsError when `docs/charts` is a file. `copy2` and `write_text` can raise OSError (permissions, full disk) after earlier writes. `mkdir(parents=True)` also creates `docs`.
- `Path.exists()` is also true for a directory of the same name; the model only looks at files. The file metadata that `copy2` copies (timestamps, mode) is not modelled.
- Crash atomicity and concurrent invocations are not modelled. Neither script uses a temporary file, a rename or a lock, so they promise neither property.
- `assets/long-charts.js` and `assets/site.js` are browser code (DOM updates, `fetch`, cache busting) and are not part of this model.
