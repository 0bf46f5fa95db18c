/** The constant tables that argument negotiation and request validation index into. */
module CaptureStills {

  /** The capture pixel formats the server offers, in table order. */
  datatype PixelFormat =
    | Format8BitYUV | Format10BitYUV | Format8BitARGB | Format8BitBGRA | Format10BitRGB
    | Format12BitRGB | Format12BitRGBLE | Format10BitRGBX | Format10BitRGBXLE

  /** Each entry pairs a format value (slot 0) with its display name (slot 1). */
  const SupportedPixelFormats: seq<(PixelFormat, string)> := [
    (Format8BitYUV, "8 bit YUV (4:2:2)"),
    (Format10BitYUV, "10 bit YUV (4:2:2)"),
    (Format8BitARGB, "8 bit ARGB (4:4:4)"),
    (Format8BitBGRA, "8 bit BGRA (4:4:4)"),
    (Format10BitRGB, "10 bit RGB (4:4:4)"),
    (Format12BitRGB, "12 bit RGB (4:4:4)"),
    (Format12BitRGBLE, "12 bit RGB (4:4:4) Little-Endian"),
    (Format10BitRGBX, "10 bit RGBX (4:4:4)"),
    (Format10BitRGBXLE, "10 bit RGBX (4:4:4) Little-Endian")
  ]

  /** Slot 0 of table entry `i`: the format value. */
  function PixelFormatValue(i: int): PixelFormat
    requires 0 <= i < |SupportedPixelFormats|
  {
    SupportedPixelFormats[i].0
  }

  /** Slot 1 of table entry `i`: the display name. */
  function PixelFormatString(i: int): string
    requires 0 <= i < |SupportedPixelFormats|
  {
    SupportedPixelFormats[i].1
  }

  /** The image file formats a snapshot may be written in. */
  const SupportedImageFormats: seq<string> := ["bmp", "png", "tiff", "jpeg"]

  /** The pixel-format table has nine entries with pairwise distinct values; entry 0
      (the default, and the one forced under format detection) is 8-bit YUV, and entry 3
      is 8-bit BGRA, the one pixel format the image writer accepts. */
  lemma PixelFormatTable()
    ensures |SupportedPixelFormats| == 9
    ensures forall i, j :: 0 <= i < j < 9 ==> PixelFormatValue(i) != PixelFormatValue(j)
    ensures PixelFormatValue(0) == Format8BitYUV
    ensures PixelFormatValue(3) == Format8BitBGRA
    ensures forall i :: 0 <= i < 9 && PixelFormatValue(i) == Format8BitBGRA ==> i == 3
  {
  }

  /** The supported image formats are bmp, png, tiff and jpeg, in that order, without
      duplicates, and the empty string is not among them. */
  lemma ImageFormatTable()
    ensures SupportedImageFormats == ["bmp", "png", "tiff", "jpeg"]
    ensures forall i, j :: 0 <= i < j < |SupportedImageFormats| ==> SupportedImageFormats[i] != SupportedImageFormats[j]
    ensures "" !in SupportedImageFormats
  {
  }

  /** The linear search the validator performs over the format list: the position of the
      first occurrence of `x`, or -1 when `x` does not occur (the end iterator). */
  function Find(s: seq<string>, x: string): (r: int)
    ensures -1 <= r < |s|
    ensures r == -1 <==> x !in s
    ensures r >= 0 ==> s[r] == x && x !in s[..r]
  {
    if s == [] then -1
    else if s[0] == x then 0
    else
      var k := Find(s[1..], x);
      if k == -1 then -1
      else
        assert s[..k + 1] == [s[0]] + s[1..][..k];
        k + 1
  }
}
