/**
 The fixed table of ground-plant sprites and their drawn sizes: six images,
 each drawn at 80% of its nominal pixel size.
 */
module Plants {

  /** The plant images, in the order the game lists them. */
  const PlantImages: seq<string> := [
    "assets/plant_small_1.png",
    "assets/plant_small_2.png",
    "assets/plant_small_3.png",
    "assets/plant_large_1.png",
    "assets/plant_large_2.png",
    "assets/plant_large_3.png"
  ]

  /** Drawn (width, height) of every plant image. */
  const PlantSizes: map<string, (real, real)> := map[
    "assets/plant_small_1.png" := (34.0 * 0.8, 70.0 * 0.8),
    "assets/plant_small_2.png" := (68.0 * 0.8, 70.0 * 0.8),
    "assets/plant_small_3.png" := (102.0 * 0.8, 70.0 * 0.8),
    "assets/plant_large_1.png" := (50.0 * 0.8, 100.0 * 0.8),
    "assets/plant_large_2.png" := (100.0 * 0.8, 100.0 * 0.8),
    "assets/plant_large_3.png" := (150.0 * 0.8, 100.0 * 0.8)
  ]

  /**
   The drawn size of the i-th plant image. The first three are small plants,
   56 high and 27.2, 54.4, 81.6 wide; the last three are large plants, 80 high
   and 40, 80, 120 wide: within each group the widths are 1, 2 and 3 times the narrowest.
   */
  function PlantSize(i: nat): (r: (real, real))
    requires i < |PlantImages|
    ensures r.0 > 0.0 && r.1 > 0.0
    ensures r.1 == if i < 3 then 56.0 else 80.0
    ensures r.0 == (if i < 3 then 27.2 else 40.0) * ((i % 3) + 1) as real
  {
    PlantSizes[PlantImages[i]]
  }

  /** Every listed image has a size, every sized image is listed, and no image is listed twice. */
  lemma PlantTableComplete()
    ensures |PlantImages| == 6
    ensures PlantSizes.Keys == set img | img in PlantImages
    ensures forall i, j :: 0 <= i < j < |PlantImages| ==> PlantImages[i] != PlantImages[j]
  {
  }
}
