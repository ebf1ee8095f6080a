/** The drum sample player (`DrumSampler`) as the sink of the drum sequencer's triggers. */
module DrumSamplers {

  class DrumSampler {
    /** `audioSources.Length`: one source per assigned drum sample. */
    const sourceCount: nat
    /** The drum indices whose audio source has been started, oldest first. */
    var played: seq<int>

    /** `Awake` with `sourceCount` samples assigned; nothing has played yet. */
    constructor (sourceCount: nat)
      ensures this.sourceCount == sourceCount && played == []
    {
      this.sourceCount := sourceCount;
      played := [];
    }

    /** Start the source of `drumIndex`; an index outside `[0, sourceCount)` is rejected. */
    method PlayDrum(drumIndex: int)
      modifies this`played
      ensures played == old(played) + (if 0 <= drumIndex < sourceCount then [drumIndex] else [])
    {
      if drumIndex < 0 || drumIndex >= sourceCount {
        return;
      }
      played := played + [drumIndex];
    }
  }
}
