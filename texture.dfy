/**
 * The grain texture generator, `generateGrainTexture`
 * (lib/justgrainy.js:108-129): a flat RGBA buffer of `4 * width * height`
 * bytes, filled four bytes at a time from a random source. The random source is
 * the sequence `noise` of the byte values it yields, in the order the loop asks
 * for them.
 */
module Texture {

  /** One channel of an RGBA pixel. */
  type byte = b: int | 0 <= b < 256

  const Opaque: byte := 255

  /** How many random values `pixels` pixels consume: one per pixel in monochrome mode, three otherwise. */
  function Draws(monochrome: bool, pixels: nat): nat
  {
    if monochrome then pixels else 3 * pixels
  }

  /** Pixel `p` as the generator writes it: R, G, B from the random source, then A. */
  function Pixel(monochrome: bool, noise: seq<byte>, p: nat): (px: seq<byte>)
    requires Draws(monochrome, p + 1) <= |noise|
  {
    if monochrome then [noise[p], noise[p], noise[p], Opaque]
    else [noise[3 * p], noise[3 * p + 1], noise[3 * p + 2], Opaque]
  }

  /** The buffer the generator leaves behind for `pixels` pixels. */
  function Grain(monochrome: bool, noise: seq<byte>, pixels: nat): (g: seq<byte>)
    requires Draws(monochrome, pixels) <= |noise|
    ensures |g| == 4 * pixels
  {
    if pixels == 0 then [] else Grain(monochrome, noise, pixels - 1) + Pixel(monochrome, noise, pixels - 1)
  }

  /** Bytes 4p to 4p+3 of a generated texture are pixel p: no index is skipped or written twice. */
  lemma {:induction false} GrainAt(monochrome: bool, noise: seq<byte>, pixels: nat, p: nat)
    requires Draws(monochrome, pixels) <= |noise| && p < pixels
    ensures Grain(monochrome, noise, pixels)[4 * p .. 4 * p + 4] == Pixel(monochrome, noise, p)
  {
    if p < pixels - 1 {
      GrainAt(monochrome, noise, pixels - 1, p);
      var g := Grain(monochrome, noise, pixels - 1);
      assert Grain(monochrome, noise, pixels)[4 * p .. 4 * p + 4] == g[4 * p .. 4 * p + 4];
    }
  }

  /** Every pixel of a generated texture is fully opaque. */
  lemma GrainOpaque(monochrome: bool, noise: seq<byte>, pixels: nat, p: nat)
    requires Draws(monochrome, pixels) <= |noise| && p < pixels
    ensures Grain(monochrome, noise, pixels)[4 * p + 3] == Opaque
  {
    GrainAt(monochrome, noise, pixels, p);
    var g := Grain(monochrome, noise, pixels);
    assert g[4 * p + 3] == g[4 * p .. 4 * p + 4][3];
  }

  /** In monochrome mode every pixel is grey: R, G and B are the pixel's one random value. */
  lemma GrainMonochromeGray(noise: seq<byte>, pixels: nat, p: nat)
    requires Draws(true, pixels) <= |noise| && p < pixels
    ensures var g := Grain(true, noise, pixels);
      g[4 * p] == g[4 * p + 1] == g[4 * p + 2] == noise[p]
  {
    GrainAt(true, noise, pixels, p);
    var g := Grain(true, noise, pixels);
    assert g[4 * p] == g[4 * p .. 4 * p + 4][0];
    assert g[4 * p + 1] == g[4 * p .. 4 * p + 4][1];
    assert g[4 * p + 2] == g[4 * p .. 4 * p + 4][2];
  }

  /**
   * In colour mode R, G and B of pixel p are three separate random values, the
   * (3p)th, (3p+1)th and (3p+2)th: no value is shared by two channels and none is
   * skipped.
   */
  lemma GrainColorChannels(noise: seq<byte>, pixels: nat, p: nat)
    requires Draws(false, pixels) <= |noise| && p < pixels
    ensures var g := Grain(false, noise, pixels);
      g[4 * p] == noise[3 * p] && g[4 * p + 1] == noise[3 * p + 1] && g[4 * p + 2] == noise[3 * p + 2]
  {
    GrainAt(false, noise, pixels, p);
    var g := Grain(false, noise, pixels);
    assert g[4 * p] == g[4 * p .. 4 * p + 4][0];
    assert g[4 * p + 1] == g[4 * p .. 4 * p + 4][1];
    assert g[4 * p + 2] == g[4 * p .. 4 * p + 4][2];
  }

  /**
   * `generateGrainTexture` up to `putImageData`: a fresh `4 * width * height`
   * buffer (what `createImageData` returns), filled by one of two loops.
   */
  method CreateGrainImage(width: nat, height: nat, monochrome: bool, noise: seq<byte>) returns (data: array<byte>)
    requires Draws(monochrome, width * height) <= |noise|
    ensures fresh(data)
    ensures data[..] == Grain(monochrome, noise, width * height)
  {
    var pixels := width * height;
    data := new byte[4 * pixels];
    assert data.Length % 4 == 0 && data.Length / 4 == pixels;
    if monochrome {
      FillMonochrome(data, noise);
    } else {
      FillColor(data, noise);
    }
  }

  /** The monochrome loop: one random value per pixel, copied to R, G and B. */
  method FillMonochrome(data: array<byte>, noise: seq<byte>)
    requires data.Length % 4 == 0 && Draws(true, data.Length / 4) <= |noise|
    modifies data
    ensures data[..] == Grain(true, noise, data.Length / 4)
  {
    var i, p := 0, 0;
    while i < data.Length
      invariant i == 4 * p && i <= data.Length
      invariant data[..i] == Grain(true, noise, p)
    {
      var value := noise[p];
      data[i] := value;
      data[i + 1] := value;
      data[i + 2] := value;
      data[i + 3] := Opaque;
      assert data[..i + 4] == data[..i] + Pixel(true, noise, p);
      i, p := i + 4, p + 1;
    }
    assert data[..] == data[..i];
  }

  /** The colour loop: three separate random values per pixel. */
  method FillColor(data: array<byte>, noise: seq<byte>)
    requires data.Length % 4 == 0 && Draws(false, data.Length / 4) <= |noise|
    modifies data
    ensures data[..] == Grain(false, noise, data.Length / 4)
  {
    var i, p := 0, 0;
    while i < data.Length
      invariant i == 4 * p && i <= data.Length
      invariant data[..i] == Grain(false, noise, p)
    {
      data[i] := noise[3 * p];
      data[i + 1] := noise[3 * p + 1];
      data[i + 2] := noise[3 * p + 2];
      data[i + 3] := Opaque;
      assert data[..i + 4] == data[..i] + Pixel(false, noise, p);
      i, p := i + 4, p + 1;
    }
    assert data[..] == data[..i];
  }
}
