/** Court calibration storage (backend/app/routers/calibration.py): the request constraints,
    the per-upload file, the saved record and the point-transform guards. The homography
    maths (`compute_h`, `invert_h`, `apply_h`) are the parameters `computeH`, `invertH` and
    `applyH`; the calibration directory is the map `files` from file name to the record it
    holds. */
module Calibration {
  import opened Base
  import opened Text

  type Point = (real, real)
  type Matrix = seq<seq<real>>

  /** `COURT_TEMPLATE_POINTS`: left-near, right-near, right-far, left-far, in metres. */
  const CourtTemplatePoints: seq<Point> := [(0.0, 0.0), (18.0, 0.0), (18.0, 9.0), (0.0, 9.0)]

  const CourtTemplateId := "indoor_fivb_18x9"

  datatype CalibrationPayload = CalibrationPayload(frameT: real, imageSize: (int, int), imagePoints: seq<Point>,
                                                   courtTemplate: string, netPoints: seq<Point>)

  datatype CalibrationRecord = CalibrationRecord(
    frameT: real, imageSize: (int, int), imagePoints: seq<Point>, courtTemplate: string,
    courtPoints: seq<Point>, netPoints: seq<Point>, netCourtPoints: seq<Point>,
    homography: Matrix, homographyInv: Matrix)

  /** The request validation of `CalibrationPayload`: exactly four image points, exactly two
      net points and the one template id, else 422. */
  function CheckPayload(p: CalibrationPayload): (r: Outcome)
    ensures r.Pass? <==> |p.imagePoints| == 4 && |p.netPoints| == 2 && p.courtTemplate == CourtTemplateId
    ensures r.Fail? ==> r.error.HttpError? && r.error.status == 422
  {
    if |p.imagePoints| != 4 then Fail(HttpError(422, "image_points must hold exactly 4 points"))
    else if |p.netPoints| != 2 then Fail(HttpError(422, "net_points must hold exactly 2 points"))
    else if p.courtTemplate != CourtTemplateId then Fail(HttpError(422, "court_template must be 'indoor_fivb_18x9'"))
    else Pass
  }

  /** `_calibration_path`, as the file name inside the calibration directory. */
  function CalibrationPath(uploadId: string): (r: string)
    ensures '/' !in r
    ensures |r| == |uploadId| + 5 && r[|uploadId|..] == ".json"
  {
    var name := ReplaceChar(uploadId, '/', '_') + ".json";
    assert forall i :: 0 <= i < |name| ==> name[i] != '/';
    name
  }

  /** What `save_calibration` returns, before the write: 422 for a refused payload, 400 when
      the homography cannot be computed or inverted, otherwise the record. */
  function SaveOutcome(payload: CalibrationPayload, computeH: (seq<Point>, seq<Point>) -> Result<Matrix>,
                       invertH: Matrix -> Option<Matrix>, applyH: (Matrix, seq<Point>) -> seq<Point>)
    : Result<CalibrationRecord>
  {
    var check := CheckPayload(payload);
    if check.Fail? then Err(check.error)
    else
      var h := computeH(payload.imagePoints, CourtTemplatePoints);
      if h.Err? then Err(HttpError(400, ErrorText(h.error)))
      else
        var inv := invertH(h.value);
        if inv.None? then Err(HttpError(400, "Homography inversion failed"))
        else Ok(CalibrationRecord(payload.frameT, payload.imageSize, payload.imagePoints, payload.courtTemplate,
                                  CourtTemplatePoints, payload.netPoints, applyH(h.value, payload.netPoints),
                                  h.value, inv.value))
  }

  /** `str(exc)` of the error `compute_h` raised. */
  function ErrorText(e: Error): string
  {
    match e
    case KeyError(k) => k
    case TypeError(m) => m
    case ValueError(m) => m
    case AttributeError(m) => m
    case HttpError(_, d) => d
  }

  /** A saved record echoes the payload, holds the court template and the two matrices, and
      has one court point per net point when `apply_h` returns one point per input. */
  lemma SavedRecordLayout(payload: CalibrationPayload, computeH: (seq<Point>, seq<Point>) -> Result<Matrix>,
                          invertH: Matrix -> Option<Matrix>, applyH: (Matrix, seq<Point>) -> seq<Point>)
    requires SaveOutcome(payload, computeH, invertH, applyH).Ok?
    ensures var rec := SaveOutcome(payload, computeH, invertH, applyH).value;
            var h := computeH(payload.imagePoints, CourtTemplatePoints);
            && rec.frameT == payload.frameT && rec.imageSize == payload.imageSize
            && rec.imagePoints == payload.imagePoints && rec.netPoints == payload.netPoints
            && rec.courtTemplate == CourtTemplateId && rec.courtPoints == CourtTemplatePoints
            && |rec.imagePoints| == 4 && |rec.netPoints| == 2
            && h.Ok? && rec.homography == h.value && invertH(h.value) == Some(rec.homographyInv)
            && (|applyH(h.value, payload.netPoints)| == |payload.netPoints| ==> |rec.netCourtPoints| == 2)
  {
  }

  /** The refusals of a save: 422 from validation, or 400 when the homography fails. */
  lemma SaveRefusals(payload: CalibrationPayload, computeH: (seq<Point>, seq<Point>) -> Result<Matrix>,
                     invertH: Matrix -> Option<Matrix>, applyH: (Matrix, seq<Point>) -> seq<Point>)
    ensures var r := SaveOutcome(payload, computeH, invertH, applyH);
            && (CheckPayload(payload).Fail? ==> r == Err(CheckPayload(payload).error))
            && (CheckPayload(payload).Pass? && computeH(payload.imagePoints, CourtTemplatePoints).Err? ==>
                  r.Err? && r.error.HttpError? && r.error.status == 400)
            && (CheckPayload(payload).Pass? && computeH(payload.imagePoints, CourtTemplatePoints).Ok?
                && invertH(computeH(payload.imagePoints, CourtTemplatePoints).value).None? ==>
                  r == Err(HttpError(400, "Homography inversion failed")))
  {
  }

  /** The shared guard of the two transforms: a missing (empty) matrix is refused with 400. */
  function Transform(matrix: Matrix, pts: seq<Point>, applyH: (Matrix, seq<Point>) -> seq<Point>,
                     missing: string): (r: Result<seq<Point>>)
    ensures matrix == [] ==> r == Err(HttpError(400, missing))
    ensures matrix != [] ==> r == Ok(applyH(matrix, pts))
  {
    if matrix == [] then Err(HttpError(400, missing)) else Ok(applyH(matrix, pts))
  }

  class CalibrationStore {
    var files: map<string, CalibrationRecord>

    constructor ()
      ensures files == map[]
    {
      files := map[];
    }

    /** `save_calibration`: the record is written (replacing any earlier one) only when the
        save succeeds, and what is written is what is returned. */
    method SaveCalibration(uploadId: string, payload: CalibrationPayload,
                           computeH: (seq<Point>, seq<Point>) -> Result<Matrix>,
                           invertH: Matrix -> Option<Matrix>, applyH: (Matrix, seq<Point>) -> seq<Point>)
        returns (r: Result<CalibrationRecord>)
      modifies this
      ensures r == SaveOutcome(payload, computeH, invertH, applyH)
      ensures r.Err? ==> files == old(files)
      ensures r.Ok? ==> files == old(files)[CalibrationPath(uploadId) := r.value]
      ensures r.Ok? ==> GetCalibration(uploadId) == Ok(r.value)
    {
      var check := CheckPayload(payload);
      if check.Fail? {
        return Err(check.error);
      }
      var homography := computeH(payload.imagePoints, CourtTemplatePoints);
      if homography.Err? {
        return Err(HttpError(400, ErrorText(homography.error)));
      }
      var inverse := invertH(homography.value);
      if inverse.None? {
        return Err(HttpError(400, "Homography inversion failed"));
      }
      var netCourt := applyH(homography.value, payload.netPoints);
      var record := CalibrationRecord(payload.frameT, payload.imageSize, payload.imagePoints, payload.courtTemplate,
                                      CourtTemplatePoints, payload.netPoints, netCourt,
                                      homography.value, inverse.value);
      files := files[CalibrationPath(uploadId) := record];
      return Ok(record);
    }

    /** `_load_calibration` / `get_calibration`: 404 when there is no file. */
    function GetCalibration(uploadId: string): (r: Result<CalibrationRecord>)
      reads this
      ensures r.Err? <==> CalibrationPath(uploadId) !in files
      ensures r.Err? ==> r.error == HttpError(404, "Calibration not found")
      ensures r.Ok? ==> r.value == files[CalibrationPath(uploadId)]
    {
      var path := CalibrationPath(uploadId);
      if path !in files then Err(HttpError(404, "Calibration not found")) else Ok(files[path])
    }

    /** `pixel_to_court`: at least one point (422), a stored calibration (404) with a
        homography (400), then the mapped points. */
    function PixelToCourt(uploadId: string, pts: seq<Point>, applyH: (Matrix, seq<Point>) -> seq<Point>)
      : (r: Result<seq<Point>>)
      reads this
      ensures pts == [] ==> r.Err? && r.error.HttpError? && r.error.status == 422
      ensures pts != [] && CalibrationPath(uploadId) !in files ==> r == Err(HttpError(404, "Calibration not found"))
      ensures pts != [] && CalibrationPath(uploadId) in files ==>
                r == Transform(files[CalibrationPath(uploadId)].homography, pts, applyH,
                               "Calibration missing homography")
    {
      if pts == [] then Err(HttpError(422, "pts must hold at least 1 point"))
      else
        var calibration := GetCalibration(uploadId);
        if calibration.Err? then Err(calibration.error)
        else Transform(calibration.value.homography, pts, applyH, "Calibration missing homography")
    }

    /** `court_to_pixel`: the same guards with the inverse homography. */
    function CourtToPixel(uploadId: string, pts: seq<Point>, applyH: (Matrix, seq<Point>) -> seq<Point>)
      : (r: Result<seq<Point>>)
      reads this
      ensures pts == [] ==> r.Err? && r.error.HttpError? && r.error.status == 422
      ensures pts != [] && CalibrationPath(uploadId) !in files ==> r == Err(HttpError(404, "Calibration not found"))
      ensures pts != [] && CalibrationPath(uploadId) in files ==>
                r == Transform(files[CalibrationPath(uploadId)].homographyInv, pts, applyH,
                               "Calibration missing inverse homography")
    {
      if pts == [] then Err(HttpError(422, "pts must hold at least 1 point"))
      else
        var calibration := GetCalibration(uploadId);
        if calibration.Err? then Err(calibration.error)
        else Transform(calibration.value.homographyInv, pts, applyH, "Calibration missing inverse homography")
    }
  }

  /** After a successful save, both transforms of that upload go through the saved matrices. */
  lemma SavedCalibrationTransforms(store: CalibrationStore, uploadId: string, rec: CalibrationRecord,
                                   pts: seq<Point>, applyH: (Matrix, seq<Point>) -> seq<Point>)
    requires store.GetCalibration(uploadId) == Ok(rec)
    requires pts != [] && rec.homography != [] && rec.homographyInv != []
    ensures store.PixelToCourt(uploadId, pts, applyH) == Ok(applyH(rec.homography, pts))
    ensures store.CourtToPixel(uploadId, pts, applyH) == Ok(applyH(rec.homographyInv, pts))
  {
  }
}
