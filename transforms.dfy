/** The per-image transform chain of the multi-image branch, as data flowing
    through the two map nodes `merge_xfm` and `concat_xfms`. What a transform
    file contains, and how ConcatenateXFMs composes it, is not modelled: a
    concatenation is recorded as the ordered chain it was given and the
    `inverse` flag it was configured with. */
module Transforms {

  /** A transform passed between nodes: a file some node wrote, or the
      result of concatenating a chain of transforms. */
  datatype Xfm = XfmFile(path: string) | Concatenated(chain: seq<Xfm>, inverse: bool)

  datatype Result<T> = Ok(value: T) | Err(reason: string)

  /** Element-wise pairing of two lists of equal length. */
  function Zip<T>(in1: seq<T>, in2: seq<T>): (r: seq<seq<T>>)
    requires |in1| == |in2|
    ensures |r| == |in1|
    ensures forall i :: 0 <= i < |r| ==> r[i] == [in1[i], in2[i]]
    decreases |in1|
  {
    if in1 == [] then [] else [[in1[0], in2[0]]] + Zip(in1[1..], in2[1..])
  }

  /** `merge_xfm`: Merge(2) mapped over `in1` and `in2` together, so item i
      is the two-element list `[in1[i], in2[i]]`. A map node iterating over
      two inputs of different lengths fails. */
  function MergePairs<T>(in1: seq<T>, in2: seq<T>): (r: Result<seq<seq<T>>>)
    ensures r.Ok? <==> |in1| == |in2|
    ensures r.Ok? ==> |r.value| == |in1|
    ensures r.Ok? ==> forall i :: 0 <= i < |in1| ==> r.value[i] == [in1[i], in2[i]]
  {
    if |in1| != |in2| then Err("iterfield inputs differ in length") else Ok(Zip(in1, in2))
  }

  /** `concat_xfms`: ConcatenateXFMs mapped over `in_xfms`, one
      concatenation per item, order kept. */
  function ConcatEach(chains: seq<seq<Xfm>>, inverse: bool): (r: seq<Xfm>)
    ensures |r| == |chains|
    ensures forall i :: 0 <= i < |r| ==> r[i] == Concatenated(chains[i], inverse)
    decreases |chains|
  {
    if chains == [] then [] else [Concatenated(chains[0], inverse)] + ConcatEach(chains[1..], inverse)
  }

  /** The realignment transforms of the multi-image branch: the conform
      transform and the template transform of image i are concatenated, in
      that order, by a ConcatenateXFMs configured with `inverse = True`. */
  function RealignXfms(conformXfms: seq<Xfm>, templateXfms: seq<Xfm>): (r: Result<seq<Xfm>>)
    ensures r.Ok? <==> |conformXfms| == |templateXfms|
    ensures r.Ok? ==> |r.value| == |conformXfms|
    ensures r.Ok? ==> forall i :: 0 <= i < |r.value| ==>
      r.value[i] == Concatenated([conformXfms[i], templateXfms[i]], true)
  {
    match MergePairs(conformXfms, templateXfms)
    case Ok(pairs) => Ok(ConcatEach(pairs, true))
    case Err(reason) => Err(reason)
  }

  /** The pairing is by position: the chain recorded for image i holds its
      conform transform first and its template transform second, and
      feeding the two lists the other way round reverses every chain. What
      the concatenated transforms compute is not modelled, so this says
      nothing about whether the two orders give different transforms. */
  lemma {:induction false} RealignChainOrder(conformXfms: seq<Xfm>, templateXfms: seq<Xfm>, i: nat)
    requires |conformXfms| == |templateXfms| && i < |conformXfms|
    ensures RealignXfms(conformXfms, templateXfms).value[i].chain == [conformXfms[i], templateXfms[i]]
    ensures RealignXfms(templateXfms, conformXfms).value[i].chain == [templateXfms[i], conformXfms[i]]
    ensures conformXfms[i] != templateXfms[i] ==>
      RealignXfms(conformXfms, templateXfms).value[i].chain != RealignXfms(templateXfms, conformXfms).value[i].chain
  {
    var fwd := RealignXfms(conformXfms, templateXfms).value[i];
    var swapped := RealignXfms(templateXfms, conformXfms).value[i];
    assert fwd.chain[0] == conformXfms[i] && swapped.chain[0] == templateXfms[i];
  }
}
