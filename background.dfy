// User-uploaded background images and their rotation
// (frontend/src/contexts/CustomBackgroundContext.tsx). Values read from
// localStorage are constructor parameters, the image list fetched from the
// backend is a method parameter, and writes to localStorage are not modelled.
module Background {
  import opened Common

  datatype UploadedImage = UploadedImage(id: string, filename: string, url: string)

  /** JavaScript's `%` on integers: the remainder takes the sign of the
    * dividend. */
  function JsRem(a: int, n: int): (r: int)
    requires n > 0
    ensures a >= 0 ==> r == a % n
    ensures -n < r < n
  {
    if a >= 0 then a % n else -((-a) % n)
  }

  /** What the page shows for a stored index, as written: indexing with a
    * negative remainder reads `undefined` and `.url` then throws. */
  datatype Shown = NoImage | Url(url: string) | TypeError

  function CurrentImageAsWritten(apiUrl: string, images: seq<UploadedImage>, enabled: bool, index: int): (r: Shown)
    ensures r.NoImage? <==> |images| == 0 || !enabled
    ensures r.TypeError? <==> |images| > 0 && enabled && JsRem(index, |images|) < 0
  {
    if |images| > 0 && enabled then
      var k := JsRem(index, |images|);
      if 0 <= k then Url(apiUrl + images[k].url) else TypeError
    else NoImage
  }

  /** A stored index of -1 with two images makes the page throw. */
  lemma NegativeIndexThrows(apiUrl: string, a: UploadedImage, b: UploadedImage)
    ensures CurrentImageAsWritten(apiUrl, [a, b], true, -1) == TypeError
  {
    assert JsRem(-1, 2) == -1;
  }

  /** The index into the image list: the current index modulo the number of
    * images, always a valid position (the remainder the code means). */
  function ImageIndex(index: int, n: int): (k: int)
    requires n > 0
    ensures 0 <= k < n
    ensures index >= 0 ==> k == JsRem(index, n)
  {
    index % n
  }

  /** For every index the code itself stores (never negative) the corrected
    * lookup shows the same image as the code. */
  lemma ImageIndexAgrees(apiUrl: string, images: seq<UploadedImage>, enabled: bool, index: int)
    requires index >= 0 && |images| > 0 && enabled
    ensures CurrentImageAsWritten(apiUrl, images, enabled, index)
      == Url(apiUrl + images[ImageIndex(index, |images|)].url)
  {
  }

  /** Index after `k` rotations from `i`, each `(i + 1) % n`. */
  function Advanced(i: int, n: int, k: nat): int
    requires n > 0
  {
    if k == 0 then i else JsRem(Advanced(i, n, k - 1) + 1, n)
  }

  /** From a valid index, rotating k <= n times moves k places forward,
    * wrapping round once; after n rotations every image has been shown once
    * and the first is back. */
  lemma {:induction false} AdvancedCycles(i: int, n: int, k: nat)
    requires 0 <= i < n && k <= n
    ensures Advanced(i, n, k) == (if i + k < n then i + k else i + k - n)
    ensures k == n ==> Advanced(i, n, k) == i
  {
    if k > 0 {
      AdvancedCycles(i, n, k - 1);
      var a := Advanced(i, n, k - 1);
      SmallRem(a + 1, n);
    }
  }

  lemma SmallRem(x: int, n: int)
    requires 0 <= x <= n && n > 0
    ensures JsRem(x, n) == (if x < n then x else 0)
  {
    if x == n {
      assert x % n == 0;
    }
  }

  /** The background provider's state. */
  class CustomBackground {
    const apiUrl: string
    var enabled: bool
    var currentIndex: int
    var uploadedImages: seq<UploadedImage>
    var autoRotate: bool
    var rotationInterval: int

    /** Start from the stored settings: disabled, index 0, auto-rotation on
      * and a 60-minute interval when nothing is stored. */
    constructor (apiUrl: string, storedEnabled: Option<bool>, storedIndex: Option<int>,
                 storedAutoRotate: Option<bool>, storedInterval: Option<int>)
      ensures this.apiUrl == apiUrl && uploadedImages == []
      ensures enabled == Pick(storedEnabled, false)
      ensures currentIndex == Pick(storedIndex, 0)
      ensures autoRotate == Pick(storedAutoRotate, true)
      ensures rotationInterval == Pick(storedInterval, 60)
    {
      this.apiUrl := apiUrl;
      enabled := Pick(storedEnabled, false);
      currentIndex := Pick(storedIndex, 0);
      uploadedImages := [];
      autoRotate := Pick(storedAutoRotate, true);
      rotationInterval := Pick(storedInterval, 60);
    }

    /** The URL of the background in force: none unless backgrounds are
      * enabled and images exist; otherwise the image at the current index
      * modulo the number of images. */
    function CurrentImage(): (r: Option<string>)
      reads this
      ensures r.None? <==> |uploadedImages| == 0 || !enabled
      ensures r.Some? ==> r.value == apiUrl + uploadedImages[ImageIndex(currentIndex, |uploadedImages|)].url
    {
      if |uploadedImages| > 0 && enabled then
        Some(apiUrl + uploadedImages[ImageIndex(currentIndex, |uploadedImages|)].url)
      else None
    }

    /** The rotation timer: none unless enabled, rotating and with images;
      * otherwise its period in milliseconds. */
    function RotationTimer(): (r: Option<int>)
      reads this
      ensures r.None? <==> !enabled || !autoRotate || |uploadedImages| == 0
      ensures r.Some? ==> r.value == rotationInterval * 60000
    {
      if !enabled || !autoRotate || |uploadedImages| == 0 then None
      else Some(rotationInterval * 60 * 1000)
    }

    /** The fetched list replaces the images; a failed fetch empties it. */
    method FetchUploadedImages(fetched: Option<seq<UploadedImage>>)
      modifies this
      ensures uploadedImages == Pick(fetched, [])
      ensures enabled == old(enabled) && currentIndex == old(currentIndex)
      ensures autoRotate == old(autoRotate) && rotationInterval == old(rotationInterval)
    {
      uploadedImages := Pick(fetched, []);
    }

    method ToggleEnabled()
      modifies this
      ensures enabled == !old(enabled)
      ensures currentIndex == old(currentIndex) && uploadedImages == old(uploadedImages)
      ensures autoRotate == old(autoRotate) && rotationInterval == old(rotationInterval)
    {
      enabled := !enabled;
    }

    /** Advance to the next image, wrapping round; nothing happens without
      * images. From a non-negative index the new one is a valid position. */
    method NextImage()
      modifies this
      ensures |uploadedImages| == 0 ==> currentIndex == old(currentIndex)
      ensures |uploadedImages| > 0 ==> currentIndex == JsRem(old(currentIndex) + 1, |uploadedImages|)
      ensures |uploadedImages| > 0 && old(currentIndex) >= -1 ==> 0 <= currentIndex < |uploadedImages|
      ensures enabled == old(enabled) && uploadedImages == old(uploadedImages)
      ensures autoRotate == old(autoRotate) && rotationInterval == old(rotationInterval)
    {
      if |uploadedImages| == 0 {
        return;
      }
      var newIndex := JsRem(currentIndex + 1, |uploadedImages|);
      currentIndex := newIndex;
    }

    method ToggleAutoRotate()
      modifies this
      ensures autoRotate == !old(autoRotate)
      ensures enabled == old(enabled) && currentIndex == old(currentIndex)
      ensures uploadedImages == old(uploadedImages) && rotationInterval == old(rotationInterval)
    {
      autoRotate := !autoRotate;
    }

    method SetRotationInterval(minutes: int)
      modifies this
      ensures rotationInterval == minutes
      ensures enabled == old(enabled) && currentIndex == old(currentIndex)
      ensures uploadedImages == old(uploadedImages) && autoRotate == old(autoRotate)
    {
      rotationInterval := minutes;
    }
  }
}
