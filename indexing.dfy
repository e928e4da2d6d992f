/**
 * Row-major pixel indexing: the pixel in column `i` and row `j` of an image
 * `width` pixels wide is stored at `j * width + i`, and the parallel jobs
 * recover `i` and `j` from the index with `%` and `/`.
 */
module Indexing {

  /** The index of column `i`, row `j`. */
  function RowMajor(width: nat, i: nat, j: nat): nat { j * width + i }

  /** Division and remainder by the width invert the row-major index. */
  lemma RowMajorInverse(width: nat, i: nat, j: nat)
    requires i < width
    ensures RowMajor(width, i, j) / width == j
    ensures RowMajor(width, i, j) % width == i
  {
    var k := j * width + i;
    var q, r := k / width, k % width;
    assert k == q * width + r;
    if q < j {
      assert q * width <= (j - 1) * width;
    } else if q > j {
      assert q * width >= (j + 1) * width;
    }
  }

  /** Every pixel of a `width` by `height` image has an index below `width * height`. */
  lemma RowMajorInImage(width: nat, height: nat, i: nat, j: nat)
    requires i < width && j < height
    ensures RowMajor(width, i, j) < width * height
  {
    assert j * width + i < (j + 1) * width;
    assert (j + 1) * width <= height * width;
  }

  /**
   * The parallel jobs compute `x = index % w` and `y = (index - x) / w` in
   * float: `y` is exactly the row `index / w`, and `y * w + x` is `index`.
   */
  lemma ColumnRowOfIndex(index: nat, width: nat)
    requires width > 0
    ensures var x := index % width;
      (index - x) as real / width as real == (index / width) as real
      && RowMajor(width, x, index / width) == index
  {
    var x := index % width;
    var y := index / width;
    assert index - x == y * width;
    assert (y * width) as real == y as real * width as real;
  }
}
