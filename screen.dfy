/**
 * The conversion of a pointer position in pixels into normalised device
 * coordinates that both mouse hooks perform: x grows to the right and y grows
 * upwards, each spanning [-1, 1] across the window or document rectangle.
 */
module Screen {

  /** `clientX / width * 2 - 1` */
  function NdcX(clientX: real, width: real): (x: real)
    requires width > 0.0
    ensures 0.0 <= clientX <= width ==> -1.0 <= x <= 1.0
    ensures clientX == 0.0 ==> x == -1.0
    ensures clientX == width ==> x == 1.0
  {
    clientX / width * 2.0 - 1.0
  }

  /** `-(clientY / height) * 2 + 1`: the top edge maps to 1, the bottom edge to -1. */
  function NdcY(clientY: real, height: real): (y: real)
    requires height > 0.0
    ensures 0.0 <= clientY <= height ==> -1.0 <= y <= 1.0
    ensures clientY == 0.0 ==> y == 1.0
    ensures clientY == height ==> y == -1.0
  {
    -(clientY / height) * 2.0 + 1.0
  }

  /** The pixel column a normalised x stands for. */
  function ClientX(x: real, width: real): real { (x + 1.0) / 2.0 * width }

  /** The pixel row a normalised y stands for. */
  function ClientY(y: real, height: real): real { (1.0 - y) / 2.0 * height }

  /** No two pixel positions share a normalised coordinate: the conversion can be undone. */
  lemma NdcRoundTrip(clientX: real, clientY: real, width: real, height: real)
    requires width > 0.0 && height > 0.0
    ensures ClientX(NdcX(clientX, width), width) == clientX
    ensures ClientY(NdcY(clientY, height), height) == clientY
  {
    assert (clientX / width * 2.0 - 1.0 + 1.0) / 2.0 == clientX / width;
    assert (1.0 - (-(clientY / height) * 2.0 + 1.0)) / 2.0 == clientY / height;
  }
}
