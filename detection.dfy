/**
 * The defect detector of model.py: `Defect.to_dict`, the accumulation loop of
 * `DefectDetector.process_image` and the exception barrier `give_img`.
 *
 * The collaborators the detector calls (reading and base64-encoding a file,
 * the cropper, the YOLO model, `post_request`) are opaque: their outcomes are
 * inputs, gathered in a `Collaborators` value, and the detector's observable
 * effects (the model call, each saved result image, each report posted) are
 * its outputs.
 */
module Detection {
  import opened Wrappers
  import opened Json

  /** One detected defect (model.py:12-16); the float confidence is a pass-through real. */
  datatype Defect = Defect(defectType: string, coordinates: string, confidenceRate: real) {
    /** The dictionary `Defect.to_dict` builds (model.py:18-23). */
    function ToDict(): (d: Object)
      ensures d.Keys == DefectKeys
      ensures d["defectType"] == JString(defectType)
      ensures d["coordinates"] == JString(coordinates)
      ensures d["confidenceRate"] == JNumber(confidenceRate)
    {
      map["defectType" := JString(defectType),
          "coordinates" := JString(coordinates),
          "confidenceRate" := JNumber(confidenceRate)]
    }
  }

  const DefectKeys: set<string> := {"defectType", "coordinates", "confidenceRate"}

  /** Reads a defect back from its dictionary; None unless it has exactly the three typed keys. */
  function DefectFromDict(d: Object): (r: Option<Defect>)
    ensures r.Some? ==> d.Keys == DefectKeys
  {
    if d.Keys == DefectKeys && d["defectType"].JString? && d["coordinates"].JString?
       && d["confidenceRate"].JNumber?
    then Some(Defect(d["defectType"].str, d["coordinates"].str, d["confidenceRate"].num))
    else None
  }

  /** `to_dict` loses nothing: the dictionary gives back the defect. */
  lemma DefectDictRoundTrip(x: Defect)
    ensures DefectFromDict(x.ToDict()) == Some(x)
  {
  }

  /** A dictionary that reads back as a defect is that defect's `to_dict`. */
  lemma DefectDictOnlyFromToDict(d: Object, x: Defect)
    requires DefectFromDict(d) == Some(x)
    ensures x.ToDict() == d
  {
  }

  /**
   * One box of an inference result: the class index, the text that
   * `str(box.xyxy.tolist()[0])` renders and the confidence.
   */
  datatype Box = Box(cls: int, coordinates: string, conf: real)

  /**
   * One inference result: the model's class-name table, its boxes in order,
   * and the base64 text of the annotated image `result.save` writes.
   */
  datatype InferenceResult = InferenceResult(names: map<int, string>, boxes: seq<Box>, plotted: string)

  /** What the cropper does: a path to the cropped image, no object found (None), or an exception. */
  datatype CropOutcome = Cropped(path: string) | NoObject | CropRaised

  /**
   * The outcomes of the detector's collaborators for one image: the base64 of
   * the original file (None when reading it raises), the cropper's outcome,
   * and the model's results (None when inference raises).
   */
  datatype Collaborators = Collaborators(
    original: Option<string>,
    crop: CropOutcome,
    inference: Option<seq<InferenceResult>>)

  /** The arguments of one `post_request` call (model.py:64-70). */
  datatype Post = Post(name: string, originalImage: string, processedImage: string,
                       defective: bool, defects: seq<Object>)

  /** What the loop does for one result: the path it saves the image to, and what it posts. */
  datatype Report = Report(savedTo: string, post: Post)

  /**
   * The observable effects of one `process_image` call: the path the model ran
   * on (None if it never ran), the reports in order, and whether an exception
   * escaped.
   */
  datatype Run = Run(modelInput: Option<string>, reports: seq<Report>, raised: bool)

  /**
   * `Path(p).name`: the text after the last '/'. Python's path normalisation
   * (trailing separators, "." components) is not modelled.
   */
  function BaseName(p: string): string
  {
    if p == [] then []
    else if p[|p| - 1] == '/' then []
    else BaseName(p[..|p| - 1]) + [p[|p| - 1]]
  }

  /**
   * The base name is the last component: a suffix of the path that holds no
   * '/', and that is either the whole path or preceded by a '/'.
   */
  lemma {:induction false} BaseNameIsLastComponent(p: string)
    ensures '/' !in BaseName(p)
    ensures |BaseName(p)| <= |p| && p[|p| - |BaseName(p)|..] == BaseName(p)
    ensures |BaseName(p)| < |p| ==> p[|p| - |BaseName(p)| - 1] == '/'
  {
    if p != [] && p[|p| - 1] != '/' {
      var init, c := p[..|p| - 1], p[|p| - 1];
      BaseNameIsLastComponent(init);
      var b := BaseName(init);
      assert BaseName(p) == b + [c];
      assert p == init + [c];
      assert p[|p| - |b| - 1..] == init[|init| - |b|..] + [c];
      if |b| + 1 < |p| {
        assert p[|p| - |b| - 2] == init[|init| - |b| - 1];
      }
    }
  }

  /** Where the annotated image of a result is saved (model.py:59). */
  function ResultPath(name: string): string
  {
    "results/result_" + name
  }

  /** Every result of one image is saved to the same file, and two images share it only if their names do. */
  lemma ResultPathInjective(a: string, b: string)
    requires ResultPath(a) == ResultPath(b)
    ensures a == b
  {
    assert a == ResultPath(a)[15..];
    assert b == ResultPath(b)[15..];
  }

  /** `result.names[int(box.cls)]` succeeds for every box of the result (else a KeyError is raised). */
  predicate Resolved(r: InferenceResult)
  {
    forall j :: 0 <= j < |r.boxes| ==> r.boxes[j].cls in r.names
  }

  /**
   * The class name of a box. For a class missing from the table the loop
   * raises before the name is used, so the empty text below never reaches a
   * report: the functions that follow are only consulted for results that
   * resolve.
   */
  function ClassName(names: map<int, string>, cls: int): string
  {
    if cls in names then names[cls] else ""
  }

  /** The defect built for one box (model.py:52-56). */
  function BoxDefect(names: map<int, string>, b: Box): Defect
  {
    Defect(ClassName(names, b.cls), b.coordinates, b.conf)
  }

  /** The dictionaries appended for a run of boxes, in box order. */
  function BoxDicts(names: map<int, string>, boxes: seq<Box>): (ds: seq<Object>)
    ensures |ds| == |boxes|
  {
    if boxes == [] then []
    else BoxDicts(names, boxes[..|boxes| - 1]) + [BoxDefect(names, boxes[|boxes| - 1]).ToDict()]
  }

  /** Entry `j` of the dictionaries of a run of boxes is the `to_dict` of box `j`'s defect. */
  lemma {:induction false} BoxDictsAt(names: map<int, string>, boxes: seq<Box>, j: nat)
    requires j < |boxes|
    ensures BoxDicts(names, boxes)[j] == BoxDefect(names, boxes[j]).ToDict()
  {
    if j < |boxes| - 1 {
      BoxDictsAt(names, boxes[..|boxes| - 1], j);
    }
  }

  /** The running `defects` list after the given results: all their boxes, result by result. */
  function DefectsOf(rs: seq<InferenceResult>): seq<Object>
  {
    if rs == [] then []
    else DefectsOf(rs[..|rs| - 1]) + BoxDicts(rs[|rs| - 1].names, rs[|rs| - 1].boxes)
  }

  /** The running `defective` flag after the given results: set by each result that has a box. */
  function Defective(rs: seq<InferenceResult>): bool
  {
    if rs == [] then false
    else Defective(rs[..|rs| - 1]) || |rs[|rs| - 1].boxes| > 0
  }

  /** The number of boxes in the given results. */
  function TotalBoxes(rs: seq<InferenceResult>): nat
  {
    if rs == [] then 0 else TotalBoxes(rs[..|rs| - 1]) + |rs[|rs| - 1].boxes|
  }

  /** The index of the first result holding a box whose class has no name, or |rs| if there is none. */
  function FirstUnresolved(rs: seq<InferenceResult>): (k: nat)
    ensures k <= |rs|
    ensures forall i :: 0 <= i < k ==> Resolved(rs[i])
    ensures k < |rs| ==> !Resolved(rs[k])
  {
    if rs == [] then 0
    else if !Resolved(rs[0]) then 0
    else 1 + FirstUnresolved(rs[1..])
  }

  /** The report the loop produces for result `i`, carrying the totals up to and including it. */
  function ReportFor(name: string, original: string, rs: seq<InferenceResult>, i: nat): Report
    requires i < |rs|
  {
    Report(ResultPath(name),
           Post(name, original, rs[i].plotted, Defective(rs[..i + 1]), DefectsOf(rs[..i + 1])))
  }

  /** The reports of the first `k` results. */
  function ReportsUpTo(name: string, original: string, rs: seq<InferenceResult>, k: nat): (reports: seq<Report>)
    requires k <= |rs|
    ensures |reports| == k
  {
    if k == 0 then [] else ReportsUpTo(name, original, rs, k - 1) + [ReportFor(name, original, rs, k - 1)]
  }

  /** Report `i` among those of the first `k` results is the one for result `i`. */
  lemma {:induction false} ReportsUpToAt(name: string, original: string, rs: seq<InferenceResult>, k: nat, i: nat)
    requires i < k <= |rs|
    ensures ReportsUpTo(name, original, rs, k)[i] == ReportFor(name, original, rs, i)
  {
    if i < k - 1 {
      ReportsUpToAt(name, original, rs, k - 1, i);
    }
  }

  /**
   * What `process_image(filePath)` does (model.py:35-70), as a function of its
   * collaborators' outcomes: reading the original first, then cropping (a
   * None crop returns quietly), then the model, then one report per result
   * until a box whose class has no name raises.
   */
  function ProcessImageSpec(filePath: string, env: Collaborators): Run
  {
    if env.original.None? then Run(None, [], true)
    else if env.crop.NoObject? then Run(None, [], false)
    else if env.crop.CropRaised? then Run(None, [], true)
    else if env.inference.None? then Run(Some(env.crop.path), [], true)
    else Run(Some(env.crop.path),
             ReportsUpTo(BaseName(filePath), env.original.value, env.inference.value,
                         FirstUnresolved(env.inference.value)),
             FirstUnresolved(env.inference.value) < |env.inference.value|)
  }

  /** `DefectDetector.process_image` (model.py:35-70). */
  method ProcessImage(filePath: string, env: Collaborators) returns (run: Run)
    ensures run == ProcessImageSpec(filePath, env)
  {
    if env.original.None? {
      // image_to_base64 raised before anything else happened
      run := Run(None, [], true);
    } else if env.crop.NoObject? {
      run := Run(None, [], false);
    } else if env.crop.CropRaised? {
      run := Run(None, [], true);
    } else if env.inference.None? {
      run := Run(Some(env.crop.path), [], true);
    } else {
      var name := BaseName(filePath);
      var reports, raised := ReportResults(name, env.original.value, env.inference.value);
      run := Run(Some(env.crop.path), reports, raised);
    }
  }

  /**
   * The loop over the model's results (model.py:47-70): accumulates the flag
   * and the list, and saves and posts once per result, until a box whose
   * class has no name raises.
   */
  method ReportResults(name: string, original: string, rs: seq<InferenceResult>)
    returns (reports: seq<Report>, raised: bool)
    ensures reports == ReportsUpTo(name, original, rs, FirstUnresolved(rs))
    ensures raised == (FirstUnresolved(rs) < |rs|)
  {
    ghost var k := FirstUnresolved(rs);
    var defective := false;
    var defects: seq<Object> := [];
    reports := [];
    var i := 0;
    while i < |rs|
      invariant 0 <= i <= k
      invariant defective == Defective(rs[..i])
      invariant defects == DefectsOf(rs[..i])
      invariant reports == ReportsUpTo(name, original, rs, i)
    {
      var result := rs[i];
      assert rs[..i + 1][..i] == rs[..i];
      if |result.boxes| > 0 {
        defective := true;
      }
      var dicts, resolved := CollectDefects(result);
      if !resolved {
        return reports, true;
      }
      defects := defects + dicts;
      reports := reports + [Report(ResultPath(name), Post(name, original, result.plotted, defective, defects))];
      i := i + 1;
    }
    return reports, false;
  }

  /**
   * The loop over the boxes of one result (model.py:51-57): the `to_dict` of
   * each box's defect, in box order; `resolved` is false when a box's class
   * has no name, where the source raises a KeyError and the result gets no
   * report.
   */
  method CollectDefects(result: InferenceResult) returns (dicts: seq<Object>, resolved: bool)
    ensures resolved == Resolved(result)
    ensures resolved ==> dicts == BoxDicts(result.names, result.boxes)
  {
    dicts := [];
    var j := 0;
    while j < |result.boxes|
      invariant 0 <= j <= |result.boxes|
      invariant forall m :: 0 <= m < j ==> result.boxes[m].cls in result.names
      invariant dicts == BoxDicts(result.names, result.boxes[..j])
    {
      var box := result.boxes[j];
      if box.cls !in result.names {
        // result.names[int(box.cls)] raises KeyError
        return dicts, false;
      }
      var defect := Defect(result.names[box.cls], box.coordinates, box.conf);
      assert result.boxes[..j + 1][..j] == result.boxes[..j];
      dicts := dicts + [defect.ToDict()];
      j := j + 1;
    }
    assert result.boxes[..j] == result.boxes;
    return dicts, true;
  }

  /** `give_img` (model.py:75-79): runs the detector and swallows any exception it raises. */
  method GiveImg(filePath: string, env: Collaborators) returns (modelInput: Option<string>, reports: seq<Report>)
    ensures modelInput == ProcessImageSpec(filePath, env).modelInput
    ensures reports == ProcessImageSpec(filePath, env).reports
  {
    var run := ProcessImage(filePath, env);
    modelInput, reports := run.modelInput, run.reports;
  }

  // ---------------------------------------------------------------------------
  // Properties of the accumulation rule
  // ---------------------------------------------------------------------------

  /** `defective` is true exactly when some result processed so far has at least one box. */
  lemma {:induction false} DefectiveIffSomeBox(rs: seq<InferenceResult>)
    ensures Defective(rs) <==> exists i :: 0 <= i < |rs| && |rs[i].boxes| > 0
  {
    if rs != [] {
      var init := rs[..|rs| - 1];
      DefectiveIffSomeBox(init);
      if Defective(init) {
        var i :| 0 <= i < |init| && |init[i].boxes| > 0;
        assert rs[i] == init[i];
      }
      if i :| 0 <= i < |rs| && |rs[i].boxes| > 0 {
        if i < |init| {
          assert init[i] == rs[i];
        }
      }
    }
  }

  /** `defective` is never reset: once true after `i` results, it stays true after any later count. */
  lemma {:induction false} DefectiveMonotone(rs: seq<InferenceResult>, i: nat, j: nat)
    requires i <= j <= |rs|
    requires Defective(rs[..i])
    ensures Defective(rs[..j])
    decreases j - i
  {
    if i < j {
      assert rs[..i + 1][..i] == rs[..i];
      DefectiveMonotone(rs, i + 1, j);
    }
  }

  /** The `defects` list only grows: the list after `i` results is a prefix of the list after `j >= i`. */
  lemma {:induction false} DefectsGrow(rs: seq<InferenceResult>, i: nat, j: nat)
    requires i <= j <= |rs|
    ensures |DefectsOf(rs[..i])| <= |DefectsOf(rs[..j])|
    ensures DefectsOf(rs[..i]) == DefectsOf(rs[..j])[..|DefectsOf(rs[..i])|]
    decreases j - i
  {
    if i < j {
      assert rs[..i + 1][..i] == rs[..i];
      DefectsGrow(rs, i + 1, j);
    }
  }

  /** One entry per box: the list after some results has as many entries as they have boxes. */
  lemma {:induction false} DefectsCount(rs: seq<InferenceResult>)
    ensures |DefectsOf(rs)| == TotalBoxes(rs)
  {
    if rs != [] {
      DefectsCount(rs[..|rs| - 1]);
    }
  }

  /**
   * Result order, then box order: box `j` of result `i` is entry
   * `TotalBoxes(rs[..i]) + j` of the list, the dictionary of the defect
   * named by that box's class.
   */
  lemma {:induction false} DefectsOrder(rs: seq<InferenceResult>, i: nat, j: nat)
    requires i < |rs| && j < |rs[i].boxes|
    requires rs[i].boxes[j].cls in rs[i].names
    ensures TotalBoxes(rs[..i]) + j < |DefectsOf(rs)|
    ensures DefectsOf(rs)[TotalBoxes(rs[..i]) + j]
         == Defect(rs[i].names[rs[i].boxes[j].cls], rs[i].boxes[j].coordinates, rs[i].boxes[j].conf).ToDict()
  {
    var init := rs[..|rs| - 1];
    DefectsCount(init);
    if i == |rs| - 1 {
      assert rs[..i] == init;
      BoxDictsAt(rs[i].names, rs[i].boxes, j);
    } else {
      assert init[..i] == rs[..i];
      DefectsOrder(init, i, j);
    }
  }

  /** A result without boxes adds nothing to the list and leaves the flag as it was. */
  lemma EmptyResultAddsNothing(rs: seq<InferenceResult>, r: InferenceResult)
    requires |r.boxes| == 0
    ensures DefectsOf(rs + [r]) == DefectsOf(rs)
    ensures Defective(rs + [r]) == Defective(rs)
  {
    assert (rs + [r])[..|rs|] == rs;
  }

  /** If cropping finds no object, the model never runs and nothing is posted (model.py:41-44). */
  lemma NoObjectNoPost(filePath: string, env: Collaborators)
    requires env.original.Some? && env.crop == NoObject
    ensures ProcessImageSpec(filePath, env) == Run(None, [], false)
  {
  }

  /**
   * One post per result: when every box's class has a name, the model runs on
   * the cropped image, nothing escapes, and the detector saves and posts once
   * for each result, in order; report `i` is `ReportFor(.., i)`, which posts
   * the file's name, the original image, result `i`'s annotated image and the
   * flag and list accumulated up to and including result `i`.
   */
  lemma OnePostPerResult(filePath: string, original: string, p: string, rs: seq<InferenceResult>)
    requires forall m :: 0 <= m < |rs| ==> Resolved(rs[m])
    ensures ProcessImageSpec(filePath, Collaborators(Some(original), Cropped(p), Some(rs))).modelInput == Some(p)
    ensures !ProcessImageSpec(filePath, Collaborators(Some(original), Cropped(p), Some(rs))).raised
    ensures |ProcessImageSpec(filePath, Collaborators(Some(original), Cropped(p), Some(rs))).reports| == |rs|
    ensures forall i :: 0 <= i < |rs| ==>
      ProcessImageSpec(filePath, Collaborators(Some(original), Cropped(p), Some(rs))).reports[i]
      == ReportFor(BaseName(filePath), original, rs, i)
  {
    var name := BaseName(filePath);
    assert FirstUnresolved(rs) == |rs|;
    forall i | 0 <= i < |rs|
      ensures ReportsUpTo(name, original, rs, |rs|)[i] == ReportFor(name, original, rs, i)
    {
      ReportsUpToAt(name, original, rs, |rs|, i);
    }
  }

  /**
   * Consecutive posts differ by exactly one result: post `i + 1` extends the
   * list of post `i` by the boxes of result `i + 1`, and its flag is the old
   * flag or-ed with "result `i + 1` has a box".
   */
  lemma ConsecutivePosts(name: string, original: string, rs: seq<InferenceResult>, i: nat)
    requires i + 1 < |rs|
    ensures ReportFor(name, original, rs, i + 1).post.defects
         == ReportFor(name, original, rs, i).post.defects + BoxDicts(rs[i + 1].names, rs[i + 1].boxes)
    ensures ReportFor(name, original, rs, i + 1).post.defective
         == (ReportFor(name, original, rs, i).post.defective || |rs[i + 1].boxes| > 0)
  {
    assert rs[..i + 2][..i + 1] == rs[..i + 1];
  }

  /**
   * A box whose class has no name aborts the loop before that result is
   * saved or posted, and the exception escapes `process_image`.
   */
  lemma UnknownClassStopsPosting(filePath: string, original: string, p: string, rs: seq<InferenceResult>, k: nat)
    requires k < |rs| && !Resolved(rs[k])
    requires forall m :: 0 <= m < k ==> Resolved(rs[m])
    ensures var run := ProcessImageSpec(filePath, Collaborators(Some(original), Cropped(p), Some(rs)));
      run.raised && |run.reports| == k
  {
    assert FirstUnresolved(rs) == k by { FirstUnresolvedIsLeast(rs, k); }
  }

  lemma {:induction false} FirstUnresolvedIsLeast(rs: seq<InferenceResult>, k: nat)
    requires k < |rs| && !Resolved(rs[k])
    requires forall m :: 0 <= m < k ==> Resolved(rs[m])
    ensures FirstUnresolved(rs) == k
  {
    if k > 0 {
      FirstUnresolvedIsLeast(rs[1..], k - 1);
    }
  }
}
