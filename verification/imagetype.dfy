/** Magic-byte image sniffing (lib/image-type.js): the PNG signature of section 5.2 of the PNG
    specification and the JPEG SOI marker of Table B.1 of ITU-T T.81. */
module Sniff {
  import opened Wrappers
  import opened Js

  /** The first four bytes of the PNG signature. */
  const PngMagic: Bytes := [0x89, 0x50, 0x4E, 0x47]

  /** The start-of-image marker. */
  const JpegMagic: Bytes := [0xFF, 0xD8]

  predicate StartsWithBytes(data: Bytes, magic: Bytes)
  {
    |magic| <= |data| && data[..|magic|] == magic
  }

  /** `imageType(data)`: the PNG test comes first; anything that is neither throws. */
  function ImageType(data: Bytes): (r: Result<string, Failure>)
    ensures StartsWithBytes(data, PngMagic) ==> r == Ok("image/png")
    ensures |data| >= 2 && data[0] == 0xFF && data[1] == 0xD8 ==> r == Ok("image/jpeg")
    ensures r.Err? <==> !StartsWithBytes(data, PngMagic) && !StartsWithBytes(data, JpegMagic)
    ensures |data| < 2 ==> r.Err?
  {
    if StartsWithBytes(data, PngMagic) then Ok("image/png")
    else if StartsWithBytes(data, JpegMagic) then Ok("image/jpeg")
    else Err(Failure(PlainError, "unknown image type"))
  }

  /** The classification depends on the first four bytes only. */
  lemma FirstFourBytes(data: Bytes)
    ensures ImageType(data) == ImageType(data[..if |data| < 4 then |data| else 4])
  {
    var p := data[..if |data| < 4 then |data| else 4];
    assert forall n :: 0 <= n <= |p| ==> p[..n] == data[..n];
  }
}
