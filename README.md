# nibabies anatomical template workflow — a Dafny model

This project models `init_anat_template_wf` from nibabies
(`nibabies/workflows/anatomical/preproc.py`). That function builds a nipype
workflow which fuses one or more anatomical images of a subject into a single,
canonically oriented structural reference. It also returns, per input image,
the transform that realigns that image to the reference.

The builder does not process images itself. It creates nodes, configures
them from its arguments, and wires output ports to input ports with
`wf.connect`. The model therefore has five parts:

- `Graph` (graph.dfy) models the graph under construction.
  - A node is a value: name, interface kind, inputs, plain or map execution,
    and scheduling hints.
  - An edge runs from a node's output port to another node's input port and
    may carry a function applied to the travelling value.
  - `Workflow` is a class whose `Connect` and `SetInput` methods update its
    node map and edge list in place, as `LiterateWorkflow.connect` and
    `node.inputs.x = ...` do.
- `Params` (params.dfy) models the values the builder derives from its
  arguments:
  - the N4 iteration schedule `[50] * (5 - 2 * sloppy)`;
  - the nested `_set_threads`.

  The memory hint `2 * num_files - 1` is written directly into the
  registration node in `AnatTemplate`.
- `Transforms` (transforms.dfy) models the per-image data flow of the
  realignment chain. `merge_xfm` pairs item i of each input, and
  `concat_xfms` concatenates each pair with `inverse = True`.
- `AnatTemplate` (anat_template.dfy) holds the builder itself:
  - the node constructors, and the three connect calls as the link lists
    they pass;
  - the imperative `InitAnatTemplateWf`, proved to produce exactly the
    declarative graph `TemplateNodes` / `TemplateEdges`;
  - the computation lemmas behind that proof.
- `AnatTemplateProperties` (anat_template_properties.dfy) states what that
  graph promises in each branch.

The code is followed literally where the documentation reads otherwise:

- The builder tests `num_files == 1` and nothing else. A count of zero or
  less therefore builds the multi-image graph, with a negative memory hint
  (`NonPositiveCountTakesMultiImagePath`).
- The output node is declared with the fields `out_file`, `valid_list`,
  `realign_xfms` and `out_report`. The edges and the constant assignment
  target `anat_valid_list`, `anat_ref` and `anat_realign_xfm`, which the
  docstring lists as outputs. The model keeps the declared fields and the
  connected ports exactly as written (`OutputPortsUndeclared`).
- The docstring (lines 54-55) describes the realignment outputs as
  transforms that realign the input images to the final reference. The graph
  takes `out_xfm` (line 193) of a ConcatenateXFMs configured with
  `inverse = True` (line 167). The model records the chain and the flag and
  does not decide which direction that output holds.

## Model

| member | source | states |
|---|---|---|
| `Params.BoolToInt` | nibabies/workflows/anatomical/preproc.py:133 | a bool in arithmetic counts 1 exactly when it is true, else 0 |
| `Params.Repeat` | nibabies/workflows/anatomical/preproc.py:133 | list repetition `[x] * n` has n elements (none when n <= 0), each equal to x |
| `Params.IterationDepth` | nibabies/workflows/anatomical/preproc.py:133 | `5 - 2 * sloppy` levels: 3 in sloppy mode, 5 otherwise |
| `Params.N4Iterations` | nibabies/workflows/anatomical/preproc.py:133 | the N4 schedule has 3 levels in sloppy mode and 5 otherwise, each of 50 iterations |
| `Params.SetThreads` | nibabies/workflows/anatomical/preproc.py:173-174 | `_set_threads` is at most the maximum and at most the list length, and equals one of the two |
| `Graph.AddNodeSpec` | nibabies/workflows/anatomical/preproc.py:92-100 | connecting a node adds its name and no other; every node already present stays as it was; a new name stores that node itself; every node stays stored under its own name |
| `Graph.ConnectNodesSpec` | nibabies/workflows/anatomical/preproc.py:177-194 | a connect call adds exactly the names its links mention. Every node already in the graph stays as it was. A new name holds the node carried by the first link that mentions it, its source before its destination |
| `Graph.ConnectEdgesMembers` | nibabies/workflows/anatomical/preproc.py:177-194 | an edge is added by a connect call if and only if some port entry of one of its links stands for it |
| `Graph.PortEdgesAt` | nibabies/workflows/anatomical/preproc.py:181-183 | the port entries of one link become its edges one for one, in order |
| `Graph.EndpointsHas` | nibabies/workflows/anatomical/preproc.py:177-194 | both nodes of every link passed to a connect call are among the nodes it mentions |
| `Graph.ThreadsOn` | nibabies/workflows/anatomical/preproc.py:173-183 | only an edge that applies `_set_threads` turns the list travelling along it into a thread count. That count is at most the edge's maximum and at most the list length, and equals one of the two |
| `Graph.Workflow.constructor` | nibabies/workflows/anatomical/preproc.py:70 | a new workflow carries its name and has no nodes and no edges |
| `Graph.Workflow.Connect` | nibabies/workflows/anatomical/preproc.py:92-100 | connect adds the links' nodes and appends their edges in order; every edge still joins two nodes of the graph |
| `Graph.Workflow.SetInput` | nibabies/workflows/anatomical/preproc.py:105-107 | assigning a node input changes that one input of that one node, and no edge |
| `Transforms.Zip` | nibabies/workflows/anatomical/preproc.py:160-165 | item i of the pairing is `[in1[i], in2[i]]`, with as many items as inputs |
| `Transforms.MergePairs` | nibabies/workflows/anatomical/preproc.py:160-165 | `merge_xfm` succeeds if and only if `in1` and `in2` have the same length, and item i is then `[in1[i], in2[i]]` |
| `Transforms.ConcatEach` | nibabies/workflows/anatomical/preproc.py:166-171 | `concat_xfms` yields one concatenation per item, in order, each with the configured inverse flag |
| `Transforms.RealignXfms` | nibabies/workflows/anatomical/preproc.py:187-193 | the realignment transforms exist if and only if the conform and template transforms are equally many; transform i is the conform transform of image i followed by its template transform, concatenated with `inverse = True` |
| `Transforms.RealignChainOrder` | nibabies/workflows/anatomical/preproc.py:188-190 | the chain concatenated for image i is `[conform_i, template_i]`, because conform transforms feed `in1` and template transforms `in2`. Feeding the lists the other way round gives `[template_i, conform_i]`, a different chain whenever the two parts differ |
| `AnatTemplate.ConformConnectNodes` | nibabies/workflows/anatomical/preproc.py:81-100 | the first connect call puts exactly inputnode, anat_ref_dimensions, anat_conform and outputnode in the graph |
| `AnatTemplate.ConformConnectEdges` | nibabies/workflows/anatomical/preproc.py:92-100 | the first connect call adds exactly the six conform-stage edges, in order |
| `AnatTemplate.SingleImageConnectNodes` | nibabies/workflows/anatomical/preproc.py:103-114 | the single-image connect call adds get1st and nothing else |
| `AnatTemplate.SingleImageConnectEdges` | nibabies/workflows/anatomical/preproc.py:110-113 | the single-image connect call adds the two edges anat_conform → get1st → outputnode.anat_ref |
| `AnatTemplate.MultiImageNodesOrder` | nibabies/workflows/anatomical/preproc.py:177-194 | for any link list joining the nodes as the multi-image connect call does, connecting it to the conform-stage nodes adds exactly the seven branch names, each holding the node its links carry, and keeps the conform-stage nodes |
| `AnatTemplate.MultiImageConnectNodes` | nibabies/workflows/anatomical/preproc.py:117-194 | the multi-image connect call adds exactly the seven branch nodes, configured from the builder's arguments |
| `AnatTemplate.MultiImageConnectEdges` | nibabies/workflows/anatomical/preproc.py:177-194 | the multi-image connect call adds exactly the thirteen branch edges, in order, including the `_set_threads` and `add_suffix` edges into anat_merge |
| `AnatTemplate.InitAnatTemplateWf` | nibabies/workflows/anatomical/preproc.py:7-196 | the builder returns a fresh, well-formed workflow with the given name whose nodes and edges are exactly the reference graph of the branch chosen by `num_files == 1`; the optional arguments have the source's defaults |
| `AnatTemplateProperties.SingleImageNodes` | nibabies/workflows/anatomical/preproc.py:103-115 | with one image the graph has exactly five nodes, none of the registration nodes, and get1st selects index 0 |
| `AnatTemplateProperties.SingleImageRealignIsConstant` | nibabies/workflows/anatomical/preproc.py:104-113 | with one image the realignment output is the constant list holding smriprep's identity transform, no edge feeds it, and the reference is the first conformed image |
| `AnatTemplateProperties.ConformStageInBothBranches` | nibabies/workflows/anatomical/preproc.py:92-100 | for every image count the six conform-stage edges come first, including the report and valid list wired to the output node |
| `AnatTemplateProperties.MultiImageNodes` | nibabies/workflows/anatomical/preproc.py:117-194 | with any other count the graph has exactly the eleven nodes of the multi-image branch, and no constant is bound on the output node |
| `AnatTemplateProperties.AnatMergeConfig` | nibabies/workflows/anatomical/preproc.py:143-155 | the registration node has a memory hint of `2 * num_files - 1` and an initial time point of 1, and it fixes the reference and skips iteration exactly when the run is not longitudinal |
| `AnatTemplateProperties.N4CorrectConfig` | nibabies/workflows/anatomical/preproc.py:128-141 | bias correction maps over `input_image` with one process whatever the thread budget, runs 50 iterations at each of 5 levels (3 when sloppy), and uses the requested B-spline distance |
| `AnatTemplateProperties.TransformChainConfig` | nibabies/workflows/anatomical/preproc.py:160-171 | `merge_xfm` is a Merge(2) mapped over `in1` and `in2`; `concat_xfms` maps over `in_xfms` with `inverse = True`; both run without submitting |
| `AnatTemplateProperties.TransformChainWiring` | nibabies/workflows/anatomical/preproc.py:186-193 | conform transforms feed `in1`, template transforms `in2`, the pairs the concatenation, whose output becomes the realignment transforms; the reoriented template becomes the reference |
| `AnatTemplateProperties.MergeThreadBudget` | nibabies/workflows/anatomical/preproc.py:173-183 | one edge, from `anat_conform.out_file`, feeds `anat_merge.num_threads`, and it applies `_set_threads` with `omp_nthreads`. For any list of conformed images travelling along it, the count delivered is `min(len(list), omp_nthreads)` |
| `AnatTemplateProperties.NonPositiveCountTakesMultiImagePath` | nibabies/workflows/anatomical/preproc.py:103-155 | a count below 1 builds the registration node, with a negative memory hint |
| `AnatTemplateProperties.OutputPortsUndeclared` | nibabies/workflows/anatomical/preproc.py:82-85 | the output node's declared fields do not include `anat_valid_list` or `anat_ref`, yet in every branch edges feed those ports |
| `AnatTemplateProperties.BuildWithDefaults` | nibabies/workflows/anatomical/preproc.py:7-16 | with only the required arguments the workflow is named `anat_template_wf` and is the non-longitudinal, non-sloppy graph with a B-spline distance of 200 |
| `AnatTemplateProperties.BuildIsIdempotent` | nibabies/workflows/anatomical/preproc.py:7-196 | two builds with the same arguments give two distinct workflows with equal nodes and edges |

## Left out

- The processing interfaces are not modelled: TemplateDimensions, Conform, LTAConvert, IntensityClip, N4, mri_robust_template, Reorient, Select and ConcatenateXFMs. A node records which interface it wraps and how it is configured, not what that interface computes.
- The workflow description (lines 71-79) is not modelled. It is prose for reports, and the FreeSurfer version it quotes comes from querying the installed FreeSurfer. `contrast` only feeds this text, so the builder takes it and ignores it.
- `get_file("smriprep", ...)` is not resolved. It locates a file inside an installed package, and the model keeps the package and relative path as `IdentityXfm`.
- `add_suffix` is not modelled. It lives in niworkflows, and its edge carries the suffix `_template` as a tag.
- The float and threshold literals (`p_min=50`, `convergence_threshold=1e-7`) are kept as their text. Nothing in the builder computes with them.
- The nipype engine's own checks at connect time are not modelled: ports that exist on the interface, a port connected twice, and distinct objects sharing a name. Nodes are identified by name, and adding a name already present keeps the stored node.
- Running the graph is not modelled: scheduling, map-node expansion and the effect of `n_procs`, `mem_gb` and `run_without_submitting`. Only the per-image pairing and concatenation of the transform chain is modelled as data flow, in `Transforms`.
- `Transforms.RealignXfms`: the model does not say whether `out_xfm` of ConcatenateXFMs with `inverse = True` holds the forward or the inverted composition. That depends on niworkflows' interface, which is not part of this model.
- `Params.SetThreads`: an empty conformed list yields 0 threads, as written. The model does not say what the registration tool does with that.
- The workflow's edges are a log of port connections in call order, one entry per port pair. The nipype engine instead keeps one graph edge per pair of nodes, holding that pair's list of port connections, with no order across pairs. Statements about edge order (`AnatTemplateProperties.ConformStageInBothBranches`: the conform-stage edges come first) are about the order of the connect calls, not about the engine's graph.
- Nothing validates the integer arguments (`num_files`, `omp_nthreads`, `bspline_fitting_distance`), and the model places no requirement on them.
