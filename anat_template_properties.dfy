/** What the workflow built by `init_anat_template_wf` promises: which nodes
    exist in each branch, how the outputs are fed, and the parameters the
    nodes derive from the builder's arguments. */
module AnatTemplateProperties {
  import opened Params
  import opened Graph
  import opened AnatTemplate

  /** With one image the graph holds exactly the input and output nodes,
      the validity check, the conform step and the selection of the first
      conformed image; none of the registration machinery exists. */
  lemma SingleImageNodes(longitudinal: bool, bsplineFittingDistance: int, sloppy: bool)
    ensures TemplateNodes(1, longitudinal, bsplineFittingDistance, sloppy).Keys
         == {"inputnode", "outputnode", "anat_ref_dimensions", "anat_conform", "get1st"}
    ensures var nodes := TemplateNodes(1, longitudinal, bsplineFittingDistance, sloppy);
      "anat_conform_xfm" !in nodes && "clip_preinu" !in nodes && "n4_correct" !in nodes &&
      "anat_merge" !in nodes && "anat_reorient" !in nodes && "merge_xfm" !in nodes && "concat_xfms" !in nodes
    ensures TemplateNodes(1, longitudinal, bsplineFittingDistance, sloppy)["get1st"].inputs["index"] == IntList([0])
  {
  }

  /** With one image the realignment transform is the one-element list
      holding smriprep's identity transform, bound as a constant on the
      output node; no edge feeds that port, and the reference is the
      selected conformed image. */
  lemma SingleImageRealignIsConstant(ompNthreads: int, longitudinal: bool, bsplineFittingDistance: int, sloppy: bool)
    ensures TemplateNodes(1, longitudinal, bsplineFittingDistance, sloppy)["outputnode"].inputs
         == map["anat_realign_xfm" := Files([PackageFile("smriprep", "data/itkIdentityTransform.txt")])]
    ensures forall e :: e in TemplateEdges(1, ompNthreads) ==> !(e.dst == "outputnode" && e.dstPort == "anat_realign_xfm")
    ensures Edge("anat_conform", "out_file", Pass, "get1st", "inlist") in TemplateEdges(1, ompNthreads)
    ensures Edge("get1st", "out", Pass, "outputnode", "anat_ref") in TemplateEdges(1, ompNthreads)
  {
  }

  /** In both branches the validity check feeds the conform step (valid
      list, target zooms, target shape) and the output node (report, valid
      list), and these edges are wired before any branch edge. */
  lemma ConformStageInBothBranches(numFiles: int, ompNthreads: int)
    ensures TemplateEdges(numFiles, ompNthreads)[..6] == ConformEdges()
    ensures Edge("inputnode", "anat_files", Pass, "anat_ref_dimensions", "t1w_list") in TemplateEdges(numFiles, ompNthreads)
    ensures Edge("anat_ref_dimensions", "t1w_valid_list", Pass, "anat_conform", "in_file") in TemplateEdges(numFiles, ompNthreads)
    ensures Edge("anat_ref_dimensions", "target_zooms", Pass, "anat_conform", "target_zooms") in TemplateEdges(numFiles, ompNthreads)
    ensures Edge("anat_ref_dimensions", "target_shape", Pass, "anat_conform", "target_shape") in TemplateEdges(numFiles, ompNthreads)
    ensures Edge("anat_ref_dimensions", "out_report", Pass, "outputnode", "out_report") in TemplateEdges(numFiles, ompNthreads)
    ensures Edge("anat_ref_dimensions", "t1w_valid_list", Pass, "outputnode", "anat_valid_list") in TemplateEdges(numFiles, ompNthreads)
  {
  }

  /** With any other number of images the graph holds the conform stage
      plus the conform transforms, clipping, bias correction, template
      registration, reorientation and the two transform-chain nodes; the
      selection node does not exist. */
  lemma MultiImageNodes(numFiles: int, longitudinal: bool, bsplineFittingDistance: int, sloppy: bool)
    requires numFiles != 1
    ensures TemplateNodes(numFiles, longitudinal, bsplineFittingDistance, sloppy).Keys
         == {"inputnode", "outputnode", "anat_ref_dimensions", "anat_conform", "anat_conform_xfm",
             "clip_preinu", "n4_correct", "anat_merge", "anat_reorient", "merge_xfm", "concat_xfms"}
    ensures TemplateNodes(numFiles, longitudinal, bsplineFittingDistance, sloppy)["outputnode"].inputs == map[]
  {
  }

  /** The template registration node: a memory hint of 2 * num_files - 1,
      the first image as the initial reference, and a fixed reference with
      no iterative re-estimation exactly when the run is not longitudinal. */
  lemma AnatMergeConfig(numFiles: int, longitudinal: bool, bsplineFittingDistance: int, sloppy: bool)
    requires numFiles != 1
    ensures var merge := TemplateNodes(numFiles, longitudinal, bsplineFittingDistance, sloppy)["anat_merge"];
      merge.iface == StructuralReference && merge.exec == Single &&
      merge.memGb == Some(2 * numFiles - 1) &&
      merge.inputs["initial_timepoint"] == Int(1) &&
      merge.inputs["fixed_timepoint"] == Bool(!longitudinal) &&
      merge.inputs["no_iteration"] == Bool(!longitudinal) &&
      merge.inputs["transform_outputs"] == Bool(true)
  {
  }

  /** The bias-field correction runs per image with a single process
      whatever the thread budget, 50 iterations at each of 5 levels (3 in
      sloppy mode), and the requested B-spline distance. */
  lemma N4CorrectConfig(numFiles: int, longitudinal: bool, bsplineFittingDistance: int, sloppy: bool)
    requires numFiles != 1
    ensures var n4 := TemplateNodes(numFiles, longitudinal, bsplineFittingDistance, sloppy)["n4_correct"];
      n4.nProcs == Some(1) && n4.exec == MapOver(["input_image"]) &&
      n4.inputs["n_iterations"].IntList? &&
      |n4.inputs["n_iterations"].ints| == (if sloppy then 3 else 5) &&
      (forall i :: 0 <= i < |n4.inputs["n_iterations"].ints| ==> n4.inputs["n_iterations"].ints[i] == 50) &&
      n4.inputs["bspline_fitting_distance"] == Int(bsplineFittingDistance)
  {
  }

  /** The two transform-chain nodes are map nodes run without submitting:
      `merge_xfm` pairs `in1` with `in2` item by item, and `concat_xfms`
      is configured with `inverse = True`. */
  lemma TransformChainConfig(numFiles: int, longitudinal: bool, bsplineFittingDistance: int, sloppy: bool)
    requires numFiles != 1
    ensures var mx := TemplateNodes(numFiles, longitudinal, bsplineFittingDistance, sloppy)["merge_xfm"];
      mx.iface == Merge(2) && mx.exec == MapOver(["in1", "in2"]) && mx.runWithoutSubmitting
    ensures var cx := TemplateNodes(numFiles, longitudinal, bsplineFittingDistance, sloppy)["concat_xfms"];
      cx.iface == ConcatenateXFMs && cx.exec == MapOver(["in_xfms"]) && cx.runWithoutSubmitting &&
      cx.inputs["inverse"] == Bool(true)
  {
  }

  /** The transform chain is wired per image: conform transforms into
      `in1`, registration transforms into `in2`, the pairs into the
      concatenation, whose output becomes the realignment transforms; the
      reoriented template becomes the reference. */
  lemma TransformChainWiring(numFiles: int, ompNthreads: int)
    requires numFiles != 1
    ensures Edge("anat_conform_xfm", "out_lta", Pass, "merge_xfm", "in1") in TemplateEdges(numFiles, ompNthreads)
    ensures Edge("anat_merge", "transform_outputs", Pass, "merge_xfm", "in2") in TemplateEdges(numFiles, ompNthreads)
    ensures Edge("merge_xfm", "out", Pass, "concat_xfms", "in_xfms") in TemplateEdges(numFiles, ompNthreads)
    ensures Edge("concat_xfms", "out_xfm", Pass, "outputnode", "anat_realign_xfm") in TemplateEdges(numFiles, ompNthreads)
    ensures Edge("anat_reorient", "out_file", Pass, "outputnode", "anat_ref") in TemplateEdges(numFiles, ompNthreads)
  {
  }

  /** The registration's thread count arrives along a single edge from the
      conformed images through `_set_threads`: whatever list of conformed
      images travels along it, the count delivered is at most
      `omp_nthreads` and at most the number of images, and is one of the
      two. */
  lemma MergeThreadBudget<T>(numFiles: int, ompNthreads: int, conformed: seq<T>)
    requires numFiles != 1
    ensures Edge("anat_conform", "out_file", ApplySetThreads(ompNthreads), "anat_merge", "num_threads")
         in TemplateEdges(numFiles, ompNthreads)
    ensures forall e :: (e in TemplateEdges(numFiles, ompNthreads) && e.dst == "anat_merge" && e.dstPort == "num_threads")
                       ==> e.src == "anat_conform" && e.srcPort == "out_file" &&
                           ThreadsOn(e.fn, conformed).Some? &&
                           ThreadsOn(e.fn, conformed).value <= ompNthreads &&
                           ThreadsOn(e.fn, conformed).value <= |conformed| &&
                           (ThreadsOn(e.fn, conformed).value == |conformed| ||
                            ThreadsOn(e.fn, conformed).value == ompNthreads)
  {
    var conform, multi := ConformEdges(), MultiImageEdges(ompNthreads);
    assert TemplateEdges(numFiles, ompNthreads) == conform + multi;
    assert forall e :: e in conform ==> e.dst != "anat_merge";
    forall e | e in multi && e.dst == "anat_merge" && e.dstPort == "num_threads"
      ensures e == multi[3]
    {
      var k :| 0 <= k < |multi| && multi[k] == e;
      assert k == 3;
    }
  }

  /** The builder does not guard the image count: zero or a negative count
      takes the multi-image path, with a negative memory hint. */
  lemma NonPositiveCountTakesMultiImagePath(numFiles: int, longitudinal: bool, bsplineFittingDistance: int, sloppy: bool)
    requires numFiles < 1
    ensures "anat_merge" in TemplateNodes(numFiles, longitudinal, bsplineFittingDistance, sloppy)
    ensures TemplateNodes(numFiles, longitudinal, bsplineFittingDistance, sloppy)["anat_merge"].memGb.value < 0
  {
  }

  /** The output node declares the fields `out_file`, `valid_list`,
      `realign_xfms` and `out_report`, yet in every branch edges feed it on
      `anat_valid_list` and `anat_ref`, ports it does not declare. */
  lemma OutputPortsUndeclared(numFiles: int, ompNthreads: int)
    ensures OutputNode.iface.fields == ["out_file", "valid_list", "realign_xfms", "out_report"]
    ensures "anat_valid_list" !in OutputNode.iface.fields && "anat_ref" !in OutputNode.iface.fields
    ensures exists e :: e in TemplateEdges(numFiles, ompNthreads) && e.dst == "outputnode" && e.dstPort == "anat_valid_list"
    ensures exists e :: e in TemplateEdges(numFiles, ompNthreads) && e.dst == "outputnode" && e.dstPort == "anat_ref"
  {
    assert TemplateEdges(numFiles, ompNthreads)[5].dstPort == "anat_valid_list";
    assert TemplateEdges(numFiles, ompNthreads)[7].dstPort == "anat_ref" ||
           TemplateEdges(numFiles, ompNthreads)[17].dstPort == "anat_ref";
  }

  /** Called with only the required arguments, the builder names the
      workflow `anat_template_wf` and builds the non-longitudinal,
      non-sloppy graph with a B-spline distance of 200. */
  method BuildWithDefaults(contrast: string, numFiles: int, ompNthreads: int) returns (wf: Workflow)
    ensures wf.name == "anat_template_wf"
    ensures wf.nodes == TemplateNodes(numFiles, false, 200, false)
    ensures wf.edges == TemplateEdges(numFiles, ompNthreads)
  {
    wf := InitAnatTemplateWf(contrast := contrast, numFiles := numFiles, ompNthreads := ompNthreads);
  }

  /** Building twice with the same arguments yields the same graph. */
  method BuildIsIdempotent(contrast: string, numFiles: int, ompNthreads: int,
                           longitudinal: bool, bsplineFittingDistance: int, sloppy: bool, name: string)
    returns (first: Workflow, second: Workflow)
    ensures first != second
    ensures first.nodes == second.nodes && first.edges == second.edges
  {
    first := InitAnatTemplateWf(contrast, numFiles, ompNthreads, longitudinal, bsplineFittingDistance, sloppy, name);
    second := InitAnatTemplateWf(contrast, numFiles, ompNthreads, longitudinal, bsplineFittingDistance, sloppy, name);
  }
}
