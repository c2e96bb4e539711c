/**
 * Declaration side of the frame-distance path constraint: an ordered list of
 * frame pairs, each with the minimum and maximum distance allowed between
 * the two frames' origins.
 */
module FrameDistance {

  import opened MocoTypes

  /** One constrained pair; the constructor stores its four arguments as given.
      A distance may be infinite, as an unbounded maximum is. */
  datatype FrameDistancePair = FrameDistancePair(
    frame1Path: string,
    frame2Path: string,
    minimumDistance: Extended,
    maximumDistance: Extended)

  class MocoFrameDistanceConstraint {
    var name: string
    var framePairs: seq<FrameDistancePair>

    /** A constraint with the default name "path_constraint" and no pairs. */
    constructor ()
      ensures name == "path_constraint" && framePairs == []
    {
      name := "path_constraint";
      framePairs := [];
    }

    /** Append `pair`; earlier pairs keep their order and contents. */
    method AddFramePair(pair: FrameDistancePair)
      modifies this`framePairs
      ensures framePairs == old(framePairs) + [pair]
      ensures |framePairs| == |old(framePairs)| + 1 && framePairs[|framePairs| - 1] == pair
      ensures forall i :: 0 <= i < |old(framePairs)| ==> framePairs[i] == old(framePairs)[i]
    {
      framePairs := framePairs + [pair];
    }

    /** Append the pair built from the two frame paths and the distance range. */
    method AddFramePairOf(frame1Path: string, frame2Path: string,
                          minimumDistance: Extended, maximumDistance: Extended)
      modifies this`framePairs
      ensures framePairs == old(framePairs)
        + [FrameDistancePair(frame1Path, frame2Path, minimumDistance, maximumDistance)]
    {
      AddFramePair(FrameDistancePair(frame1Path, frame2Path, minimumDistance, maximumDistance));
    }
  }
}
