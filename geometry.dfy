/**
 * Planar integer points, as cv::Point_<int> is used throughout the scanner,
 * and the squared Euclidean distance the hit tester compares.
 */
module Geometry {

  datatype Point = Point(x: int, y: int)

  function Square(n: int): (r: nat)
    ensures r == 0 <==> n == 0
  {
    n * n
  }

  /**
   * Squared Euclidean distance. The editor compares square roots; the exact
   * square root is monotone, so comparing squares gives the same order and the
   * same ties (the editor rounds its roots to `float`, which merges distinct
   * distances only above about 2048 pixels).
   */
  function Dist2(a: Point, b: Point): (d: nat)
    ensures d == 0 <==> a == b
  {
    Square(a.x - b.x) + Square(a.y - b.y)
  }
}
