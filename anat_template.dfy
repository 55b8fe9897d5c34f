/** `init_anat_template_wf`: the workflow that fuses one or more anatomical
    images into a canonically oriented reference. The builder is modelled as
    the imperative sequence of connect calls the source makes; the graph it
    must produce is written out declaratively as TemplateNodes and
    TemplateEdges, and the properties of the workflow are lemmas about
    those. */
module AnatTemplate {
  import opened Params
  import opened Graph

  /** The identity transform shipped with smriprep, used as the single
      image's realignment transform. */
  const IdentityXfm := PackageFile("smriprep", "data/itkIdentityTransform.txt")

  function PlainNode(name: string, iface: Interface, inputs: map<string, Value>): Node
  {
    Node(name, iface, inputs, Single, None, None, false)
  }

  function MapNode(name: string, iface: Interface, inputs: map<string, Value>, iterfield: seq<string>): Node
  {
    Node(name, iface, inputs, MapOver(iterfield), None, None, false)
  }

  /** A port entry whose value travels unchanged. */
  function Wire(srcPort: string, dstPort: string): PortPair
  {
    PortPair(srcPort, Pass, dstPort)
  }

  // The nodes, as created by the builder.

  const InputNode := PlainNode("inputnode", IdentityInterface(["anat_files"]), map[])

  const OutputNode :=
    PlainNode("outputnode", IdentityInterface(["out_file", "valid_list", "realign_xfms", "out_report"]), map[])

  const AnatRefDimensions := PlainNode("anat_ref_dimensions", TemplateDimensions, map[])

  const AnatConform := MapNode("anat_conform", Conform, map[], ["in_file"])

  const Get1st := PlainNode("get1st", Select, map["index" := IntList([0])])

  const AnatConformXfm :=
    MapNode("anat_conform_xfm", LTAConvert,
            map["in_lta" := Text("identity.nofile"), "out_lta" := Bool(true)],
            ["source_file", "target_file"])

  const ClipPreinu := MapNode("clip_preinu", IntensityClip, map["p_min" := Opaque("50")], ["in_file"])

  /** Bias-field correction, one image at a time, with one process each. */
  function N4Correct(bsplineFittingDistance: int, sloppy: bool): Node
  {
    MapNode("n4_correct", N4BiasFieldCorrection,
            map["dimension" := Int(3),
                "save_bias" := Bool(false),
                "copy_header" := Bool(true),
                "n_iterations" := IntList(N4Iterations(sloppy)),
                "convergence_threshold" := Opaque("1e-7"),
                "shrink_factor" := Int(4),
                "bspline_fitting_distance" := Int(bsplineFittingDistance)],
            ["input_image"]).(nProcs := Some(1))
  }

  /** Robust template registration and averaging of all images. */
  function AnatMerge(numFiles: int, longitudinal: bool): Node
  {
    PlainNode("anat_merge", StructuralReference,
              map["auto_detect_sensitivity" := Bool(true),
                  "initial_timepoint" := Int(1),
                  "intensity_scaling" := Bool(true),
                  "subsample_threshold" := Int(200),
                  "fixed_timepoint" := Bool(!longitudinal),
                  "no_iteration" := Bool(!longitudinal),
                  "transform_outputs" := Bool(true)]).(memGb := Some(2 * numFiles - 1))
  }

  const AnatReorient := PlainNode("anat_reorient", Reorient, map[])

  const MergeXfm := MapNode("merge_xfm", Merge(2), map[], ["in1", "in2"]).(runWithoutSubmitting := true)

  const ConcatXfms :=
    MapNode("concat_xfms", ConcatenateXFMs, map["inverse" := Bool(true)], ["in_xfms"]).(runWithoutSubmitting := true)

  // The three connect calls of the builder, as the lists they pass.

  /** Validity check and conforming, wired before the branch. */
  function ConformLinks(): seq<Link>
  {
    [Link(InputNode, AnatRefDimensions, [Wire("anat_files", "t1w_list")]),
     Link(AnatRefDimensions, AnatConform,
          [Wire("t1w_valid_list", "in_file"),
           Wire("target_zooms", "target_zooms"),
           Wire("target_shape", "target_shape")]),
     Link(AnatRefDimensions, OutputNode,
          [Wire("out_report", "out_report"),
           Wire("t1w_valid_list", "anat_valid_list")])]
  }

  /** With one image, its conformed version is the reference. */
  function SingleImageLinks(): seq<Link>
  {
    [Link(AnatConform, Get1st, [Wire("out_file", "inlist")]),
     Link(Get1st, OutputNode, [Wire("out", "anat_ref")])]
  }

  /** With several images: conform transforms, bias correction, template
      registration, reorientation and the per-image transform chain. */
  function MultiImageLinks(numFiles: int, ompNthreads: int, longitudinal: bool,
                           bsplineFittingDistance: int, sloppy: bool): seq<Link>
  {
    var n4Correct := N4Correct(bsplineFittingDistance, sloppy);
    var anatMerge := AnatMerge(numFiles, longitudinal);
    [Link(AnatRefDimensions, AnatConformXfm, [Wire("t1w_valid_list", "source_file")]),
     Link(AnatConform, AnatConformXfm, [Wire("out_file", "target_file")]),
     Link(AnatConform, ClipPreinu, [Wire("out_file", "in_file")]),
     Link(AnatConform, anatMerge,
          [PortPair("out_file", ApplySetThreads(ompNthreads), "num_threads"),
           PortPair("out_file", AddSuffix("_template"), "out_file")]),
     Link(ClipPreinu, n4Correct, [Wire("out_file", "input_image")]),
     Link(n4Correct, anatMerge, [Wire("output_image", "in_files")]),
     Link(anatMerge, AnatReorient, [Wire("out_file", "in_file")]),
     Link(AnatConformXfm, MergeXfm, [Wire("out_lta", "in1")]),
     Link(anatMerge, MergeXfm, [Wire("transform_outputs", "in2")]),
     Link(MergeXfm, ConcatXfms, [Wire("out", "in_xfms")]),
     Link(AnatReorient, OutputNode, [Wire("out_file", "anat_ref")]),
     Link(ConcatXfms, OutputNode, [Wire("out_xfm", "anat_realign_xfm")])]
  }

  // The graph the builder must return, written out.

  /** The edges wired before the branch on the number of images. */
  function ConformEdges(): seq<Edge>
  {
    [Edge("inputnode", "anat_files", Pass, "anat_ref_dimensions", "t1w_list"),
     Edge("anat_ref_dimensions", "t1w_valid_list", Pass, "anat_conform", "in_file"),
     Edge("anat_ref_dimensions", "target_zooms", Pass, "anat_conform", "target_zooms"),
     Edge("anat_ref_dimensions", "target_shape", Pass, "anat_conform", "target_shape"),
     Edge("anat_ref_dimensions", "out_report", Pass, "outputnode", "out_report"),
     Edge("anat_ref_dimensions", "t1w_valid_list", Pass, "outputnode", "anat_valid_list")]
  }

  /** The edges of the single-image branch. */
  function SingleImageEdges(): seq<Edge>
  {
    [Edge("anat_conform", "out_file", Pass, "get1st", "inlist"),
     Edge("get1st", "out", Pass, "outputnode", "anat_ref")]
  }

  /** The edges of the multi-image branch. */
  function MultiImageEdges(ompNthreads: int): seq<Edge>
  {
    [Edge("anat_ref_dimensions", "t1w_valid_list", Pass, "anat_conform_xfm", "source_file"),
     Edge("anat_conform", "out_file", Pass, "anat_conform_xfm", "target_file"),
     Edge("anat_conform", "out_file", Pass, "clip_preinu", "in_file"),
     Edge("anat_conform", "out_file", ApplySetThreads(ompNthreads), "anat_merge", "num_threads"),
     Edge("anat_conform", "out_file", AddSuffix("_template"), "anat_merge", "out_file"),
     Edge("clip_preinu", "out_file", Pass, "n4_correct", "input_image"),
     Edge("n4_correct", "output_image", Pass, "anat_merge", "in_files"),
     Edge("anat_merge", "out_file", Pass, "anat_reorient", "in_file"),
     Edge("anat_conform_xfm", "out_lta", Pass, "merge_xfm", "in1"),
     Edge("anat_merge", "transform_outputs", Pass, "merge_xfm", "in2"),
     Edge("merge_xfm", "out", Pass, "concat_xfms", "in_xfms"),
     Edge("anat_reorient", "out_file", Pass, "outputnode", "anat_ref"),
     Edge("concat_xfms", "out_xfm", Pass, "outputnode", "anat_realign_xfm")]
  }

  function TemplateEdges(numFiles: int, ompNthreads: int): seq<Edge>
  {
    ConformEdges() + if numFiles == 1 then SingleImageEdges() else MultiImageEdges(ompNthreads)
  }

  /** The nodes present once the conform stage is wired. */
  function ConformNodes(): map<string, Node>
  {
    map["inputnode" := InputNode,
        "anat_ref_dimensions" := AnatRefDimensions,
        "anat_conform" := AnatConform,
        "outputnode" := OutputNode]
  }

  /** The output node of the single-image branch: the identity transform is
      bound to its realignment input as a constant. */
  const SingleImageOutputNode := OutputNode.(inputs := map["anat_realign_xfm" := Files([IdentityXfm])])

  /** The nodes of the returned graph, by name, listed in the order the
      connect calls first mention them. */
  function TemplateNodes(numFiles: int, longitudinal: bool, bsplineFittingDistance: int, sloppy: bool)
    : map<string, Node>
  {
    if numFiles == 1 then
      ConformNodes()["outputnode" := SingleImageOutputNode]["get1st" := Get1st]
    else
      ConformNodes()
        ["anat_conform_xfm" := AnatConformXfm]
        ["clip_preinu" := ClipPreinu]
        ["anat_merge" := AnatMerge(numFiles, longitudinal)]
        ["n4_correct" := N4Correct(bsplineFittingDistance, sloppy)]
        ["anat_reorient" := AnatReorient]
        ["merge_xfm" := MergeXfm]
        ["concat_xfms" := ConcatXfms]
  }

  // What each connect call produces.

  /** The first connect call adds the four conform-stage nodes. */
  lemma ConformConnectNodes()
    ensures ConnectNodes(map[], ConformLinks()) == ConformNodes()
  {
    var ls := ConformLinks();
    var m := map[];
    assert ls[0].src == InputNode && ls[0].dst == AnatRefDimensions;
    assert AddNode(m, InputNode) == m["inputnode" := InputNode];
    assert AddNode(m["inputnode" := InputNode], AnatRefDimensions) == m["inputnode" := InputNode]["anat_ref_dimensions" := AnatRefDimensions];
    ConnectNodesStep(m, ls, 0);
    m := m["inputnode" := InputNode]["anat_ref_dimensions" := AnatRefDimensions];
    assert ls[1].src == AnatRefDimensions && ls[1].dst == AnatConform;
    assert AddNode(m, AnatRefDimensions) == m;
    assert AddNode(m, AnatConform) == m["anat_conform" := AnatConform];
    ConnectNodesStep(m, ls, 1);
    m := m["anat_conform" := AnatConform];
    assert ls[2].src == AnatRefDimensions && ls[2].dst == OutputNode;
    assert AddNode(m, AnatRefDimensions) == m;
    assert AddNode(m, OutputNode) == m["outputnode" := OutputNode];
    ConnectNodesStep(m, ls, 2);
    m := m["outputnode" := OutputNode];
    assert ConnectNodesFrom(m, ls, 3) == m;
  }

  /** The first connect call adds the six edges common to both branches. */
  lemma ConformConnectEdges()
    ensures ConnectEdges(ConformLinks()) == ConformEdges()
  {
    var ls := ConformLinks();
    assert PortEdgesFrom(ls[0], 0) == [LinkEdge(ls[0], 0)] + PortEdgesFrom(ls[0], 1);
    assert PortEdgesFrom(ls[0], 1) == [];
    assert ConnectEdgesFrom(ls, 0) == PortEdgesFrom(ls[0], 0) + ConnectEdgesFrom(ls, 1);
    assert PortEdgesFrom(ls[1], 0) == [LinkEdge(ls[1], 0)] + PortEdgesFrom(ls[1], 1);
    assert PortEdgesFrom(ls[1], 1) == [LinkEdge(ls[1], 1)] + PortEdgesFrom(ls[1], 2);
    assert PortEdgesFrom(ls[1], 2) == [LinkEdge(ls[1], 2)] + PortEdgesFrom(ls[1], 3);
    assert PortEdgesFrom(ls[1], 3) == [];
    assert ConnectEdgesFrom(ls, 1) == PortEdgesFrom(ls[1], 0) + ConnectEdgesFrom(ls, 2);
    assert PortEdgesFrom(ls[2], 0) == [LinkEdge(ls[2], 0)] + PortEdgesFrom(ls[2], 1);
    assert PortEdgesFrom(ls[2], 1) == [LinkEdge(ls[2], 1)] + PortEdgesFrom(ls[2], 2);
    assert PortEdgesFrom(ls[2], 2) == [];
    assert ConnectEdgesFrom(ls, 2) == PortEdgesFrom(ls[2], 0) + ConnectEdgesFrom(ls, 3);
    assert ConnectEdgesFrom(ls, 3) == [];
  }

  /** The single-image connect call adds `get1st` and keeps the output node
      that already carries the identity transform. */
  lemma SingleImageConnectNodes()
    ensures ConnectNodes(ConformNodes()["outputnode" := SingleImageOutputNode], SingleImageLinks())
         == TemplateNodes(1, false, 0, false)
  {
    var ls := SingleImageLinks();
    var m := ConformNodes()["outputnode" := SingleImageOutputNode];
    assert ls[0].src == AnatConform && ls[0].dst == Get1st;
    assert AddNode(m, AnatConform) == m;
    assert AddNode(m, Get1st) == m["get1st" := Get1st];
    ConnectNodesStep(m, ls, 0);
    m := m["get1st" := Get1st];
    assert ls[1].src == Get1st && ls[1].dst == OutputNode;
    assert AddNode(m, Get1st) == m;
    assert AddNode(m, OutputNode) == m;
    ConnectNodesStep(m, ls, 1);
    assert ConnectNodesFrom(m, ls, 2) == m;
  }

  /** The single-image connect call adds the two edges of that branch. */
  lemma SingleImageConnectEdges()
    ensures ConnectEdges(SingleImageLinks()) == SingleImageEdges()
  {
    var ls := SingleImageLinks();
    assert PortEdgesFrom(ls[0], 0) == [LinkEdge(ls[0], 0)] + PortEdgesFrom(ls[0], 1);
    assert PortEdgesFrom(ls[0], 1) == [];
    assert ConnectEdgesFrom(ls, 0) == PortEdgesFrom(ls[0], 0) + ConnectEdgesFrom(ls, 1);
    assert PortEdgesFrom(ls[1], 0) == [LinkEdge(ls[1], 0)] + PortEdgesFrom(ls[1], 1);
    assert PortEdgesFrom(ls[1], 1) == [];
    assert ConnectEdgesFrom(ls, 1) == PortEdgesFrom(ls[1], 0) + ConnectEdgesFrom(ls, 2);
    assert ConnectEdgesFrom(ls, 2) == [];
  }

  /** The shape of the multi-image connect list as far as nodes go: which
      node each link joins, with each branch node known by its name only. */
  ghost predicate MultiImageShape(ls: seq<Link>, xfm: Node, clip: Node, merge: Node, n4: Node, reorient: Node, mx: Node, cx: Node)
  {
    xfm.name == "anat_conform_xfm" && clip.name == "clip_preinu" && merge.name == "anat_merge" &&
    n4.name == "n4_correct" && reorient.name == "anat_reorient" &&
    mx.name == "merge_xfm" && cx.name == "concat_xfms" &&
    |ls| == 12 &&
    ls[0].src == AnatRefDimensions && ls[0].dst == xfm &&
    ls[1].src == AnatConform && ls[1].dst == xfm &&
    ls[2].src == AnatConform && ls[2].dst == clip &&
    ls[3].src == AnatConform && ls[3].dst == merge &&
    ls[4].src == clip && ls[4].dst == n4 &&
    ls[5].src == n4 && ls[5].dst == merge &&
    ls[6].src == merge && ls[6].dst == reorient &&
    ls[7].src == xfm && ls[7].dst == mx &&
    ls[8].src == merge && ls[8].dst == mx &&
    ls[9].src == mx && ls[9].dst == cx &&
    ls[10].src == reorient && ls[10].dst == OutputNode &&
    ls[11].src == cx && ls[11].dst == OutputNode
  }

  /** Links 0 to 2 of the multi-image connect call. */
  lemma MultiImageNodesPart0(ls: seq<Link>, xfm: Node, clip: Node, merge: Node, n4: Node, reorient: Node, mx: Node, cx: Node)
    requires MultiImageShape(ls, xfm, clip, merge, n4, reorient, mx, cx)
    ensures ConnectNodesFrom(ConformNodes(), ls, 0)
         == ConnectNodesFrom(ConformNodes()["anat_conform_xfm" := xfm]["clip_preinu" := clip], ls, 3)
  {
    var m := ConformNodes();
    assert AddNode(m, AnatRefDimensions) == m;
    assert AddNode(m, xfm) == m["anat_conform_xfm" := xfm];
    ConnectNodesStep(m, ls, 0);
    m := m["anat_conform_xfm" := xfm];
    assert AddNode(m, AnatConform) == m;
    assert AddNode(m, xfm) == m;
    ConnectNodesStep(m, ls, 1);
    assert AddNode(m, AnatConform) == m;
    assert AddNode(m, clip) == m["clip_preinu" := clip];
    ConnectNodesStep(m, ls, 2);
    m := m["clip_preinu" := clip];
  }

  /** Links 3 to 5 of the multi-image connect call. */
  lemma MultiImageNodesPart1(ls: seq<Link>, xfm: Node, clip: Node, merge: Node, n4: Node, reorient: Node, mx: Node, cx: Node)
    requires MultiImageShape(ls, xfm, clip, merge, n4, reorient, mx, cx)
    ensures ConnectNodesFrom(ConformNodes()["anat_conform_xfm" := xfm]["clip_preinu" := clip], ls, 3)
         == ConnectNodesFrom(ConformNodes()["anat_conform_xfm" := xfm]["clip_preinu" := clip]["anat_merge" := merge]["n4_correct" := n4], ls, 6)
  {
    var m := ConformNodes()["anat_conform_xfm" := xfm]["clip_preinu" := clip];
    assert AddNode(m, AnatConform) == m;
    assert AddNode(m, merge) == m["anat_merge" := merge];
    ConnectNodesStep(m, ls, 3);
    m := m["anat_merge" := merge];
    assert AddNode(m, clip) == m;
    assert AddNode(m, n4) == m["n4_correct" := n4];
    ConnectNodesStep(m, ls, 4);
    m := m["n4_correct" := n4];
    assert AddNode(m, n4) == m;
    assert AddNode(m, merge) == m;
    ConnectNodesStep(m, ls, 5);
  }

  /** Links 6 to 8 of the multi-image connect call. */
  lemma MultiImageNodesPart2(ls: seq<Link>, xfm: Node, clip: Node, merge: Node, n4: Node, reorient: Node, mx: Node, cx: Node)
    requires MultiImageShape(ls, xfm, clip, merge, n4, reorient, mx, cx)
    ensures ConnectNodesFrom(ConformNodes()["anat_conform_xfm" := xfm]["clip_preinu" := clip]["anat_merge" := merge]["n4_correct" := n4], ls, 6)
         == ConnectNodesFrom(ConformNodes()["anat_conform_xfm" := xfm]["clip_preinu" := clip]["anat_merge" := merge]["n4_correct" := n4]["anat_reorient" := reorient]["merge_xfm" := mx], ls, 9)
  {
    var m := ConformNodes()["anat_conform_xfm" := xfm]["clip_preinu" := clip]["anat_merge" := merge]["n4_correct" := n4];
    assert AddNode(m, merge) == m;
    assert AddNode(m, reorient) == m["anat_reorient" := reorient];
    ConnectNodesStep(m, ls, 6);
    m := m["anat_reorient" := reorient];
    assert AddNode(m, xfm) == m;
    assert AddNode(m, mx) == m["merge_xfm" := mx];
    ConnectNodesStep(m, ls, 7);
    m := m["merge_xfm" := mx];
    assert AddNode(m, merge) == m;
    assert AddNode(m, mx) == m;
    ConnectNodesStep(m, ls, 8);
  }

  /** Links 9 to 11 of the multi-image connect call. */
  lemma MultiImageNodesPart3(ls: seq<Link>, xfm: Node, clip: Node, merge: Node, n4: Node, reorient: Node, mx: Node, cx: Node)
    requires MultiImageShape(ls, xfm, clip, merge, n4, reorient, mx, cx)
    ensures ConnectNodesFrom(ConformNodes()["anat_conform_xfm" := xfm]["clip_preinu" := clip]["anat_merge" := merge]["n4_correct" := n4]["anat_reorient" := reorient]["merge_xfm" := mx], ls, 9)
         == ConnectNodesFrom(ConformNodes()["anat_conform_xfm" := xfm]["clip_preinu" := clip]["anat_merge" := merge]["n4_correct" := n4]["anat_reorient" := reorient]["merge_xfm" := mx]["concat_xfms" := cx], ls, 12)
  {
    var m := ConformNodes()["anat_conform_xfm" := xfm]["clip_preinu" := clip]["anat_merge" := merge]["n4_correct" := n4]["anat_reorient" := reorient]["merge_xfm" := mx];
    assert AddNode(m, mx) == m;
    assert AddNode(m, cx) == m["concat_xfms" := cx];
    ConnectNodesStep(m, ls, 9);
    m := m["concat_xfms" := cx];
    assert AddNode(m, reorient) == m;
    assert AddNode(m, OutputNode) == m;
    ConnectNodesStep(m, ls, 10);
    assert AddNode(m, cx) == m;
    assert AddNode(m, OutputNode) == m;
    ConnectNodesStep(m, ls, 11);
  }

  /** For any link list of the multi-image shape, connecting it to the
      conform-stage nodes adds exactly the seven branch names, each holding
      the node its links carry, and keeps the conform-stage nodes. */
  lemma MultiImageNodesOrder(ls: seq<Link>, xfm: Node, clip: Node, merge: Node, n4: Node, reorient: Node, mx: Node, cx: Node)
    requires MultiImageShape(ls, xfm, clip, merge, n4, reorient, mx, cx)
    ensures ConnectNodes(ConformNodes(), ls) == ConformNodes()["anat_conform_xfm" := xfm]["clip_preinu" := clip]["anat_merge" := merge]["n4_correct" := n4]["anat_reorient" := reorient]["merge_xfm" := mx]["concat_xfms" := cx]
  {
    MultiImageNodesPart0(ls, xfm, clip, merge, n4, reorient, mx, cx);
    MultiImageNodesPart1(ls, xfm, clip, merge, n4, reorient, mx, cx);
    MultiImageNodesPart2(ls, xfm, clip, merge, n4, reorient, mx, cx);
    MultiImageNodesPart3(ls, xfm, clip, merge, n4, reorient, mx, cx);
  }

  /** The multi-image connect call adds the seven nodes of that branch. */
  lemma MultiImageConnectNodes(numFiles: int, ompNthreads: int, longitudinal: bool,
                               bsplineFittingDistance: int, sloppy: bool)
    requires numFiles != 1
    ensures ConnectNodes(ConformNodes(), MultiImageLinks(numFiles, ompNthreads, longitudinal, bsplineFittingDistance, sloppy))
         == TemplateNodes(numFiles, longitudinal, bsplineFittingDistance, sloppy)
  {
    var ls := MultiImageLinks(numFiles, ompNthreads, longitudinal, bsplineFittingDistance, sloppy);
    var merge, n4 := AnatMerge(numFiles, longitudinal), N4Correct(bsplineFittingDistance, sloppy);
    assert MultiImageShape(ls, AnatConformXfm, ClipPreinu, merge, n4, AnatReorient, MergeXfm, ConcatXfms);
    MultiImageNodesOrder(ls, AnatConformXfm, ClipPreinu, merge, n4, AnatReorient, MergeXfm, ConcatXfms);
  }

  /** The shape of the multi-image connect list as far as edges go: the
      names each link joins and its port entries. */
  ghost predicate MultiImagePorts(ls: seq<Link>, ompNthreads: int)
  {
    |ls| == 12 &&
    ls[0].src.name == "anat_ref_dimensions" && ls[0].dst.name == "anat_conform_xfm" && ls[0].ports == [Wire("t1w_valid_list", "source_file")] &&
    ls[1].src.name == "anat_conform" && ls[1].dst.name == "anat_conform_xfm" && ls[1].ports == [Wire("out_file", "target_file")] &&
    ls[2].src.name == "anat_conform" && ls[2].dst.name == "clip_preinu" && ls[2].ports == [Wire("out_file", "in_file")] &&
    ls[3].src.name == "anat_conform" && ls[3].dst.name == "anat_merge" && ls[3].ports == [PortPair("out_file", ApplySetThreads(ompNthreads), "num_threads"), PortPair("out_file", AddSuffix("_template"), "out_file")] &&
    ls[4].src.name == "clip_preinu" && ls[4].dst.name == "n4_correct" && ls[4].ports == [Wire("out_file", "input_image")] &&
    ls[5].src.name == "n4_correct" && ls[5].dst.name == "anat_merge" && ls[5].ports == [Wire("output_image", "in_files")] &&
    ls[6].src.name == "anat_merge" && ls[6].dst.name == "anat_reorient" && ls[6].ports == [Wire("out_file", "in_file")] &&
    ls[7].src.name == "anat_conform_xfm" && ls[7].dst.name == "merge_xfm" && ls[7].ports == [Wire("out_lta", "in1")] &&
    ls[8].src.name == "anat_merge" && ls[8].dst.name == "merge_xfm" && ls[8].ports == [Wire("transform_outputs", "in2")] &&
    ls[9].src.name == "merge_xfm" && ls[9].dst.name == "concat_xfms" && ls[9].ports == [Wire("out", "in_xfms")] &&
    ls[10].src.name == "anat_reorient" && ls[10].dst.name == "outputnode" && ls[10].ports == [Wire("out_file", "anat_ref")] &&
    ls[11].src.name == "concat_xfms" && ls[11].dst.name == "outputnode" && ls[11].ports == [Wire("out_xfm", "anat_realign_xfm")]
  }

  /** Links 6 to 11 of the multi-image connect call add its last seven edges. */
  lemma MultiImageEdgesTail(ls: seq<Link>, ompNthreads: int)
    requires MultiImagePorts(ls, ompNthreads)
    ensures ConnectEdgesFrom(ls, 6) == MultiImageEdges(ompNthreads)[7..]
  {
    var es := MultiImageEdges(ompNthreads);
    assert ConnectEdgesFrom(ls, 12) == es[13..];
    ConnectEdgesOnePort(ls, 11);
    assert ConnectEdgesFrom(ls, 11) == es[12..];
    ConnectEdgesOnePort(ls, 10);
    assert ConnectEdgesFrom(ls, 10) == es[11..];
    ConnectEdgesOnePort(ls, 9);
    assert ConnectEdgesFrom(ls, 9) == es[10..];
    ConnectEdgesOnePort(ls, 8);
    assert ConnectEdgesFrom(ls, 8) == es[9..];
    ConnectEdgesOnePort(ls, 7);
    assert ConnectEdgesFrom(ls, 7) == es[8..];
    ConnectEdgesOnePort(ls, 6);
    assert ConnectEdgesFrom(ls, 6) == es[7..];
  }

  /** Any link list of the multi-image shape adds exactly the thirteen
      edges of that branch, in order. */
  lemma MultiImageEdgesOf(ls: seq<Link>, ompNthreads: int)
    requires MultiImagePorts(ls, ompNthreads)
    ensures ConnectEdges(ls) == MultiImageEdges(ompNthreads)
  {
    var es := MultiImageEdges(ompNthreads);
    MultiImageEdgesTail(ls, ompNthreads);
    ConnectEdgesOnePort(ls, 5);
    assert ConnectEdgesFrom(ls, 5) == es[6..];
    ConnectEdgesOnePort(ls, 4);
    assert ConnectEdgesFrom(ls, 4) == es[5..];
    ConnectEdgesTwoPorts(ls, 3);
    assert ConnectEdgesFrom(ls, 3) == es[3..];
    ConnectEdgesOnePort(ls, 2);
    assert ConnectEdgesFrom(ls, 2) == es[2..];
    ConnectEdgesOnePort(ls, 1);
    assert ConnectEdgesFrom(ls, 1) == es[1..];
    ConnectEdgesOnePort(ls, 0);
    assert ConnectEdgesFrom(ls, 0) == es[0..];
  }

  /** The multi-image connect call adds the thirteen edges of that branch. */
  lemma MultiImageConnectEdges(numFiles: int, ompNthreads: int, longitudinal: bool,
                               bsplineFittingDistance: int, sloppy: bool)
    ensures ConnectEdges(MultiImageLinks(numFiles, ompNthreads, longitudinal, bsplineFittingDistance, sloppy)) == MultiImageEdges(ompNthreads)
  {
    var ls := MultiImageLinks(numFiles, ompNthreads, longitudinal, bsplineFittingDistance, sloppy);
    assert MultiImagePorts(ls, ompNthreads);
    MultiImageEdgesOf(ls, ompNthreads);
  }

  // The builder.

  /** Builds the workflow: the conform stage, then either the single-image
      selection (returning early) or the bias correction, registration,
      reorientation and transform chain of the multi-image branch. The
      contrast label only feeds the workflow's description text. */
  method InitAnatTemplateWf(
    contrast: string, numFiles: int, ompNthreads: int,
    longitudinal: bool := false, bsplineFittingDistance: int := 200, sloppy: bool := false,
    name: string := "anat_template_wf")
    returns (wf: Workflow)
    ensures fresh(wf) && wf.Valid() && wf.name == name
    ensures wf.nodes == TemplateNodes(numFiles, longitudinal, bsplineFittingDistance, sloppy)
    ensures wf.edges == TemplateEdges(numFiles, ompNthreads)
  {
    wf := new Workflow(name);
    wf.Connect(ConformLinks());
    ConformConnectNodes();
    ConformConnectEdges();
    assert wf.nodes == ConformNodes() && wf.edges == ConformEdges();

    if numFiles == 1 {
      wf.SetInput("outputnode", "anat_realign_xfm", Files([IdentityXfm]));
      assert wf.nodes == ConformNodes()["outputnode" := SingleImageOutputNode];
      wf.Connect(SingleImageLinks());
      SingleImageConnectNodes();
      SingleImageConnectEdges();
      return;
    }

    wf.Connect(MultiImageLinks(numFiles, ompNthreads, longitudinal, bsplineFittingDistance, sloppy));
    MultiImageConnectNodes(numFiles, ompNthreads, longitudinal, bsplineFittingDistance, sloppy);
    MultiImageConnectEdges(numFiles, ompNthreads, longitudinal, bsplineFittingDistance, sloppy);
  }
}
