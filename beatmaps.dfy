/** The entities the beatmap carousel works on. */
module Beatmaps {

  /**
   * One difficulty of a beatmap set. `id` is the identity `BeatmapInfo.Equals`
   * compares; `setId` names the owning set (`BeatmapInfo.BeatmapSet`).
   */
  datatype Beatmap = Beatmap(id: nat, setId: nat)

  /** A beatmap set: its identity and its difficulties in their stored order. */
  datatype BeatmapSet = BeatmapSet(id: nat, beatmaps: seq<Beatmap>)

  /** The `GroupDefinition` record: two groups are equal exactly when their titles are. */
  datatype GroupDefinition = GroupDefinition(title: string)

  /** The model a carousel item wraps, or that a selection event carries. */
  datatype Model =
    | GroupModel(group: GroupDefinition)
    | SetModel(beatmapSet: BeatmapSet)
    | BeatmapModel(beatmap: Beatmap)
    | OtherModel   // any other object, including null

  /** The part of the filter criteria the selection logic reads. */
  datatype FilterCriteria = FilterCriteria(splitOutDifficulties: bool)

  /** The exceptions the carousel's logic can throw. */
  datatype CarouselError =
    | NotImplemented    // NotImplementedException
    | InvalidOperation  // InvalidOperationException from First / SingleOrDefault
    | UnsupportedModel  // ArgumentException for an unknown model type

  /** `BeatmapInfo.Equals`: two beatmaps are equal when their identities are. */
  predicate SameBeatmap(a: Beatmap, b: Beatmap)
  {
    a.id == b.id
  }

  /** A display item of the carousel: a fixed model and a mutable visibility flag. */
  class CarouselItem {
    const model: Model
    var isVisible: bool

    constructor (model: Model, isVisible: bool)
      ensures this.model == model && this.isVisible == isVisible
    {
      this.model := model;
      this.isVisible := isVisible;
    }
  }
}
