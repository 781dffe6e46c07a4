/** `batch_import_components` of src/scenemanager/manager.py: prepare the import scene, then
    import and sort every listed file, and report. */
module Batch {
  import opened Common
  import opened SceneSetup
  import ImportSort

  const IMPORT_FAILED := "Importing avatar components failed."
  const NEW_SCENE := "Created a new scene. Your old scene is still there!"

  /** What `batch_import_components` ends with: its feedback list, or the exception that
      escaped `import_sort_files`. */
  datatype Result = Report(feedback: seq<Feedback>) | Raised(exc: ImportSort.Exc)

  /** What `init_import_scene` returns: `None` when the path is not a directory, otherwise
      whether the scene properties could be set and files were found. */
  function InitResult(isDir: bool, registered: bool, found: seq<seq<string>>): Option<bool> {
    if !isDir then None else Some(registered && found != [])
  }

  /** The feedback of `batch_import_components` from the result of `init_import_scene` and
      that of `import_sort_files`, which only runs when the scene was initialized. */
  function BatchReport(init: Option<bool>, useNewScene: bool, imported: ImportSort.Outcome): Result {
    var tail := if useNewScene && init.Some? then [Feedback(INFO, NEW_SCENE)] else [];
    if init != Some(true) then Report([Feedback(ERROR, IMPORT_FAILED)] + tail)
    else match imported
      case Raised(e) => Raised(e)
      case Done(fb) => Report(fb + tail)
  }

  /** An exception escapes only from an import that ran. One ERROR opens the report exactly
      when the scene was not initialized; the import's own feedback comes next otherwise,
      unchanged; the new-scene notice closes the report exactly when a new scene was asked
      for and the path was a directory. */
  lemma BatchReportShape(init: Option<bool>, useNewScene: bool, imported: ImportSort.Outcome)
    ensures var r := BatchReport(init, useNewScene, imported);
            var notice := if useNewScene && init.Some? then 1 else 0;
            (r.Raised? <==> init == Some(true) && imported.Raised?)
            && (r.Report? && init != Some(true) ==>
                  |r.feedback| == 1 + notice && r.feedback[0] == Feedback(ERROR, IMPORT_FAILED))
            && (r.Report? && init == Some(true) ==>
                  imported.Done? && |r.feedback| == |imported.feedback| + notice
                  && r.feedback[..|imported.feedback|] == imported.feedback)
            && (r.Report? && notice == 1 ==> r.feedback[|r.feedback| - 1] == Feedback(INFO, NEW_SCENE))
  {
    var r := BatchReport(init, useNewScene, imported);
    if r.Report? && init == Some(true) {
      assert r.feedback[..|imported.feedback|] == imported.feedback;
    }
  }

  /** `batch_import_components(context, path, use_new_scene)`. The directory listing of the
      path is `dirNames` (its sub-folders) and `found` (the FBX files below it, as paths
      relative to `rootAbs`); `outs[i]` is what importing the `i`-th file gives. The
      midpoint `mid` is the data right after `init_import_scene`, and `imported` the outcome
      of `import_sort_files` when it ran. */
  method BatchImportComponents(b: Blend, importPath: string, isDir: bool, useNewScene: bool,
                               dirNames: seq<string>, rootAbs: string, found: seq<seq<string>>,
                               outs: seq<ImportSort.LoadOutcome>)
    returns (r: Result, ghost mid: ImportSort.World, ghost imported: ImportSort.Outcome)
    requires b.Valid()
    requires forall i :: 0 <= i < |found| ==> |found[i]| > 0
    requires |outs| == |found|
    modifies b
    ensures b.Valid()
    ensures r == BatchReport(InitResult(isDir, old(b.registered), found), useNewScene, imported)
    ensures InitResult(isDir, old(b.registered), found) == Some(true) ==>
              b.importFiles == ImportListAsWritten(rootAbs, found)
              && mid.attrs == old(b.attrs) && mid.objects == old(b.dataObjects)
              && var run := ImportSort.Sorting(mid, ImportSort.CtxOf(b), b.importFiles, outs);
                 imported == (if run.exc.Some? then ImportSort.Raised(run.exc.value) else ImportSort.Done(run.s.feedback))
                 && ImportSort.WorldOf(b) == run.s.w
    ensures !isDir ==> b.colls == old(b.colls) && b.Props() == old(b.Props())
  {
    var init := b.InitImportScene(importPath, isDir, useNewScene, dirNames, rootAbs, found);
    mid := ImportSort.WorldOf(b);
    imported := ImportSort.Done([]);
    var feedback: seq<Feedback> := [];
    if init != Some(true) {
      feedback := feedback + [Feedback(ERROR, IMPORT_FAILED)];
    } else {
      var out := ImportSort.ImportSortFiles(b, outs);
      imported := out;
      if out.Raised? {
        return Raised(out.exc), mid, imported;
      }
      feedback := feedback + out.feedback;
    }
    if useNewScene && init.Some? {
      feedback := feedback + [Feedback(INFO, NEW_SCENE)];
    }
    r := Report(feedback);
  }
}
