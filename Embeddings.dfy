/**
 * Images and the simple pixel embedding used by the MediaPipe and OpenCV strategies.
 *
 * `_get_simple_embedding` resizes the face crop to a 128x128 canvas with `cv2.resize`
 * (a foreign call, see the `Detection` module), divides every 8-bit channel by 255 and
 * flattens the canvas row-major. This module models the scaling and the flattening.
 */
module Embeddings {

  /** One 8-bit channel value (numpy `uint8`). */
  type Byte = x: int | 0 <= x < 256

  /** A raster: rows of pixels, each pixel a sequence of channel values; origin top-left. */
  type Raster = seq<seq<seq<Byte>>>

  /** A face embedding: an ordered vector of reals (numpy floats without rounding). */
  type Embedding = seq<real>

  /** The side of the canvas that `_get_simple_embedding` resizes every face crop to. */
  const CanvasSide: nat := 128

  /** `px` is a dense `h` x `w` raster with `c` channels per pixel. */
  ghost predicate IsRaster(px: Raster, h: nat, w: nat, c: nat) {
    && |px| == h
    && (forall i :: 0 <= i < h ==> |px[i]| == w)
    && (forall i, j :: 0 <= i < h && 0 <= j < w ==> |px[i][j]| == c)
  }

  /** One pixel's channels divided by 255. */
  function ScaleChannels(p: seq<Byte>): (r: seq<real>)
    ensures |r| == |p|
  {
    seq(|p|, k requires 0 <= k < |p| => p[k] as real / 255.0)
  }

  /** One row of pixels, scaled and laid out pixel after pixel. */
  function FlattenRow(row: seq<seq<Byte>>): seq<real>
  {
    if row == [] then [] else ScaleChannels(row[0]) + FlattenRow(row[1..])
  }

  /** `face_normalized.flatten()`: every channel of the canvas scaled to [0,1], row-major. */
  function SimpleEmbedding(px: Raster): Embedding
  {
    if px == [] then [] else FlattenRow(px[0]) + SimpleEmbedding(px[1..])
  }

  lemma MulSucc(a: int, b: int)
    ensures (a + 1) * b == a * b + b
  {
  }

  /** A row of `w` pixels of `c` channels flattens to `w * c` entries. */
  lemma {:induction false} FlattenRowLength(row: seq<seq<Byte>>, w: nat, c: nat)
    requires |row| == w
    requires forall j :: 0 <= j < w ==> |row[j]| == c
    ensures |FlattenRow(row)| == w * c
  {
    if w > 0 {
      FlattenRowLength(row[1..], w - 1, c);
      MulSucc(w - 1, c);
    }
  }

  /** Within one row of `w` pixels of `c` channels, channel `k` of pixel `j` lands at `j * c + k`. */
  lemma {:induction false} FlattenRowAt(row: seq<seq<Byte>>, w: nat, c: nat, j: nat, k: nat)
    requires |row| == w
    requires forall j :: 0 <= j < w ==> |row[j]| == c
    requires j < w && k < c
    ensures j * c + k < |FlattenRow(row)|
    ensures FlattenRow(row)[j * c + k] == row[j][k] as real / 255.0
  {
    var rest := row[1..];
    FlattenRowLength(row, w, c);
    FlattenRowLength(rest, w - 1, c);
    var head := ScaleChannels(row[0]);
    assert FlattenRow(row) == head + FlattenRow(rest);
    if j == 0 {
      assert FlattenRow(row)[k] == head[k];
    } else {
      FlattenRowAt(rest, w - 1, c, j - 1, k);
      MulSucc(j - 1, c);
      assert j * c + k == c + ((j - 1) * c + k);
      assert FlattenRow(row)[j * c + k] == FlattenRow(rest)[(j - 1) * c + k];
      assert rest[j - 1] == row[j];
    }
  }

  /** The simple embedding of an `h` x `w` x `c` raster has `h * w * c` entries. */
  lemma {:induction false} SimpleEmbeddingLength(px: Raster, h: nat, w: nat, c: nat)
    requires IsRaster(px, h, w, c)
    ensures |SimpleEmbedding(px)| == h * (w * c)
  {
    if h > 0 {
      assert IsRaster(px[1..], h - 1, w, c);
      SimpleEmbeddingLength(px[1..], h - 1, w, c);
      FlattenRowLength(px[0], w, c);
      MulSucc(h - 1, w * c);
    }
  }

  /** Where channel `k` of pixel `(i, j)` of a raster `w` pixels wide with `c` channels lands. */
  function Offset(w: nat, c: nat, i: nat, j: nat, k: nat): nat {
    (i * w + j) * c + k
  }

  /** Entry `Offset(w, c, i, j, k)` of `e` is channel `k` of pixel `(i, j)` of `px` divided by 255. */
  ghost predicate ChannelAt(e: Embedding, px: Raster, w: nat, c: nat, i: nat, j: nat, k: nat) {
    && i < |px| && j < |px[i]| && k < |px[i][j]|
    && Offset(w, c, i, j, k) < |e|
    && e[Offset(w, c, i, j, k)] == px[i][j][k] as real / 255.0
  }

  /** Skipping one row of `w` pixels of `c` channels moves an offset by `w * c`. */
  lemma NextRowOffset(w: nat, c: nat, i: nat, j: nat, k: nat)
    requires i > 0
    ensures Offset(w, c, i, j, k) == w * c + Offset(w, c, i - 1, j, k)
  {
    MulSucc(i - 1, w);
    assert i * w + j == w + ((i - 1) * w + j);
    MulSucc2(w, (i - 1) * w + j, c);
  }

  lemma ConcatIndex<T>(a: seq<T>, b: seq<T>, n: nat)
    requires n < |b|
    ensures (a + b)[|a| + n] == b[n]
  {
  }

  lemma MulSucc2(a: int, b: int, c: int)
    ensures (a + b) * c == a * c + b * c
  {
  }

  lemma MulAssoc(a: int, b: int, c: int)
    ensures a * (b * c) == a * b * c
  {
  }

  /** Channel `k` of pixel `(i, j)` sits at `Offset(w, c, i, j, k)` of the simple embedding. */
  lemma {:induction false} SimpleEmbeddingEntry(px: Raster, h: nat, w: nat, c: nat, i: nat, j: nat, k: nat)
    requires IsRaster(px, h, w, c)
    requires i < h && j < w && k < c
    ensures ChannelAt(SimpleEmbedding(px), px, w, c, i, j, k)
  {
    var rest := px[1..];
    assert IsRaster(rest, h - 1, w, c);
    FlattenRowLength(px[0], w, c);
    var head := FlattenRow(px[0]);
    assert SimpleEmbedding(px) == head + SimpleEmbedding(rest);
    if i == 0 {
      FlattenRowAt(px[0], w, c, j, k);
      assert Offset(w, c, i, j, k) == j * c + k;
    } else {
      SimpleEmbeddingEntry(rest, h - 1, w, c, i - 1, j, k);
      NextRowOffset(w, c, i, j, k);
      ConcatIndex(head, SimpleEmbedding(rest), Offset(w, c, i - 1, j, k));
      assert rest[i - 1] == px[i];
    }
  }

  /**
   * The simple embedding of an `h` x `w` x `c` raster (the 128 x 128 canvas in the program)
   * has `h * w * c` entries, and entry `(i * w + j) * c + k` is channel `k` of pixel `(i, j)`
   * divided by 255.
   */
  lemma SimpleEmbeddingLayout(px: Raster, h: nat, w: nat, c: nat)
    requires IsRaster(px, h, w, c)
    ensures |SimpleEmbedding(px)| == h * w * c
    ensures forall i: nat, j: nat, k: nat :: i < h && j < w && k < c ==> ChannelAt(SimpleEmbedding(px), px, w, c, i, j, k)
  {
    SimpleEmbeddingLength(px, h, w, c);
    MulAssoc(h, w, c);
    forall i: nat, j: nat, k: nat | i < h && j < w && k < c
      ensures ChannelAt(SimpleEmbedding(px), px, w, c, i, j, k)
    {
      SimpleEmbeddingEntry(px, h, w, c, i, j, k);
    }
  }

  /**
   * `_get_simple_embedding` on the resized 128 x 128 canvas with `c` channels: a vector of
   * `128 * 128 * c` entries, laid out row-major, each in [0, 1].
   */
  lemma CanvasEmbedding(px: Raster, c: nat)
    requires IsRaster(px, CanvasSide, CanvasSide, c)
    ensures |SimpleEmbedding(px)| == 128 * 128 * c
    ensures forall i: nat, j: nat, k: nat :: i < CanvasSide && j < CanvasSide && k < c ==>
      ChannelAt(SimpleEmbedding(px), px, CanvasSide, c, i, j, k)
    ensures forall n :: 0 <= n < |SimpleEmbedding(px)| ==> 0.0 <= SimpleEmbedding(px)[n] <= 1.0
  {
    SimpleEmbeddingLayout(px, CanvasSide, CanvasSide, c);
    SimpleEmbeddingInUnitRange(px);
  }

  /** Every entry of the simple embedding lies in [0, 1], whatever the shape of the raster. */
  lemma {:induction false} SimpleEmbeddingInUnitRange(px: Raster)
    ensures forall n :: 0 <= n < |SimpleEmbedding(px)| ==> 0.0 <= SimpleEmbedding(px)[n] <= 1.0
  {
    if px != [] {
      SimpleEmbeddingInUnitRange(px[1..]);
      FlattenRowInUnitRange(px[0]);
    }
  }

  lemma {:induction false} FlattenRowInUnitRange(row: seq<seq<Byte>>)
    ensures forall n :: 0 <= n < |FlattenRow(row)| ==> 0.0 <= FlattenRow(row)[n] <= 1.0
  {
    if row != [] {
      FlattenRowInUnitRange(row[1..]);
    }
  }
}
