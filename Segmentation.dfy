/**
 * The segmentation step both handlers share: open the stored object as an
 * image, resize it to 256 x 256 and cluster its pixels with `kmeans_numpy`.
 * Only what decides whether the step raises is modelled: an object that does
 * not decode as an image, and a cluster count the k-means code cannot run
 * with. The pixels, the centroids and the encoded PNG are not part of this
 * model.
 */
module Segmentation {
  import opened Wrappers
  import opened PyValues

  /** Both handlers resize to `Side` x `Side` before clustering, whatever the original size. */
  const Side: nat := 256
  const PixelCount: nat := Side * Side

  const LargerSample := "Cannot take a larger sample than population when 'replace=False'"
  const NegativeDimensions := "negative dimensions are not allowed"
  const EmptyArgmin := "attempt to get argmin of an empty sequence"

  /**
   * `kmeans_numpy(pixels, n_clusters=k)` over `PixelCount` pixels. The initial
   * centroids are `k` pixels sampled without replacement, which numpy refuses
   * for more than `PixelCount` of them or a negative number; with no centroid
   * at all, the first `argmin` over each pixel's distances has nothing to
   * choose from. Any other count runs to the end.
   */
  function KMeans(k: int): (r: Outcome<PyError>)
    ensures r.Pass? <==> 1 <= k <= PixelCount
    ensures r.Fail? ==> r.error.ValueError?
  {
    if k > PixelCount then Fail(ValueError(LargerSample))
    else if k < 0 then Fail(ValueError(NegativeDimensions))
    else if k == 0 then Fail(ValueError(EmptyArgmin))
    else Pass
  }

  /**
   * The step after the object was read: `images` holds the (bucket, key)
   * objects that decode as images. An object that does not decode raises
   * before the cluster count is looked at.
   */
  function Segment(images: set<(string, string)>, bucket: string, key: string, k: int): (r: Outcome<PyError>)
    ensures r.Pass? <==> (bucket, key) in images && 1 <= k <= PixelCount
    ensures r.Fail? && (bucket, key) !in images ==> r.error == UnidentifiedImageError(key)
    ensures r.Fail? && (bucket, key) in images ==> r.error.ValueError?
  {
    if (bucket, key) !in images then Fail(UnidentifiedImageError(key)) else KMeans(k)
  }
}
