/** The two selection loops of Camera2Util: the camera id for a lens facing
    and the still-image reader sized after the widest JPEG output size. */
module Camera2Util {
  import opened Wrappers

  type CameraId = string

  /** An output size of a camera stream (android.util.Size). */
  datatype Size = Size(width: int, height: int)

  /** One entry of the camera manager: an id from getCameraIdList() with the
      characteristics the core reads: LENS_FACING, and from
      SCALER_STREAM_CONFIGURATION_MAP the JPEG output sizes and the SurfaceTexture
      (preview) output sizes. */
  datatype Camera = Camera(id: CameraId, lensFacing: int, jpegSizes: seq<Size>, previewSizes: seq<Size>)

  /** The parameters an ImageReader is created with by ImageReader.newInstance. */
  datatype ImageReader = ImageReader(width: int, height: int, format: int, maxImages: int)

  // CameraCharacteristics.LENS_FACING_* and ImageFormat.JPEG.
  const LensFacingFront: int := 0
  const LensFacingBack: int := 1
  const Jpeg: int := 0x100

  /** Index of the first camera, in list order, whose lens faces `facing`. */
  function FirstWithFacing(cameras: seq<Camera>, facing: int): (k: Option<nat>)
    ensures k.Some? ==> k.value < |cameras| && cameras[k.value].lensFacing == facing
    ensures k.Some? ==> forall j :: 0 <= j < k.value ==> cameras[j].lensFacing != facing
    ensures k.None? <==> forall j :: 0 <= j < |cameras| ==> cameras[j].lensFacing != facing
  {
    if |cameras| == 0 then None
    else if cameras[0].lensFacing == facing then Some(0)
    else
      match FirstWithFacing(cameras[1..], facing)
      case None => None
      case Some(i) => Some(i + 1)
  }

  /** The id getCameraId answers: that of the first camera with the facing, or null. */
  function CameraIdFor(cameras: seq<Camera>, facing: int): Option<CameraId>
  {
    match FirstWithFacing(cameras, facing)
    case None => None
    case Some(k) => Some(cameras[k].id)
  }

  /** getCameraId: a scan of the id list that returns at the first match. */
  method GetCameraId(cameras: seq<Camera>, facing: int) returns (id: Option<CameraId>)
    ensures id == CameraIdFor(cameras, facing)
    ensures id.None? <==> forall j :: 0 <= j < |cameras| ==> cameras[j].lensFacing != facing
    ensures id.Some? ==> exists k :: 0 <= k < |cameras| && cameras[k].id == id.value &&
                                     cameras[k].lensFacing == facing &&
                                     forall j :: 0 <= j < k ==> cameras[j].lensFacing != facing
  {
    for i := 0 to |cameras|
      invariant forall j :: 0 <= j < i ==> cameras[j].lensFacing != facing
    {
      if cameras[i].lensFacing == facing {
        FirstMatchIsFound(cameras, facing, i);
        return Some(cameras[i].id);
      }
    }
    return None;
  }

  /** Any index whose camera has the facing while no earlier one has is the one
      FirstWithFacing names. */
  lemma {:induction false} FirstMatchIsFound(cameras: seq<Camera>, facing: int, i: nat)
    requires i < |cameras| && cameras[i].lensFacing == facing
    requires forall j :: 0 <= j < i ==> cameras[j].lensFacing != facing
    ensures FirstWithFacing(cameras, facing) == Some(i)
  {
    if i > 0 {
      FirstMatchIsFound(cameras[1..], facing, i - 1);
    }
  }

  /** Index of the widest size; among sizes of equal maximal width the earliest. */
  function MaxWidthIndex(sizes: seq<Size>): (k: nat)
    requires |sizes| > 0
    ensures k < |sizes|
    ensures forall j :: 0 <= j < |sizes| ==> sizes[j].width <= sizes[k].width
    ensures forall j :: 0 <= j < k ==> sizes[j].width < sizes[k].width
  {
    if |sizes| == 1 then 0
    else
      var k := MaxWidthIndex(sizes[..|sizes| - 1]);
      if sizes[|sizes| - 1].width > sizes[k].width then |sizes| - 1 else k
  }

  /** The reader getMaxSizeImageReader creates for `sizes`: the widest size with
      width and height exchanged (portrait), holding one image. */
  function MaxSizeReader(sizes: seq<Size>, format: int): ImageReader
    requires |sizes| > 0
  {
    var s := sizes[MaxWidthIndex(sizes)];
    ImageReader(s.height, s.width, format, 1)
  }

  /** getMaxSizeImageReader: a running maximum over the sizes, starting from
      sizes[0] and replacing it only by a strictly wider size. None stands for the
      ArrayIndexOutOfBoundsException that sizes[0] throws on an empty list. */
  method GetMaxSizeImageReader(sizes: seq<Size>, format: int) returns (reader: Option<ImageReader>)
    ensures reader.None? <==> |sizes| == 0
    ensures reader.Some? ==> reader.value == MaxSizeReader(sizes, format)
    ensures reader.Some? ==> reader.value.format == format && reader.value.maxImages == 1
    ensures reader.Some? ==>
              exists k :: 0 <= k < |sizes| && reader.value.width == sizes[k].height &&
                          reader.value.height == sizes[k].width &&
                          (forall j :: 0 <= j < |sizes| ==> sizes[j].width <= sizes[k].width) &&
                          (forall j :: 0 <= j < k ==> sizes[j].width < sizes[k].width)
  {
    if |sizes| == 0 {
      return None;
    }
    var maxSize := sizes[0];
    ghost var maxIndex := 0;
    for i := 0 to |sizes|
      invariant maxIndex < |sizes| && maxSize == sizes[maxIndex]
      invariant i == 0 ==> maxIndex == 0
      invariant i > 0 ==> maxIndex == MaxWidthIndex(sizes[..i])
    {
      if sizes[i].width > maxSize.width {
        maxSize := sizes[i];
        maxIndex := i;
      }
      assert sizes[..i + 1][..i] == sizes[..i];
    }
    assert sizes[..|sizes|] == sizes;
    reader := Some(ImageReader(maxSize.height, maxSize.width, format, 1));
  }
}
