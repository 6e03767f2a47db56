/** Screen geometry of the fitting window: integer points and the two maps
    between client coordinates (origin at the top-left corner, y growing
    downwards) and logical coordinates (origin at the centre of the window,
    y growing upwards). */
module Geometry {

  /** A Win32 POINT: two integer coordinates. */
  datatype Point = Point(x: int, y: int)

  /** Size of the client area in pixels. */
  const Width: int := 1366
  const Height: int := 768

  /** Client coordinates to logical coordinates: shift the origin to the
      centre (Width / 2, Height / 2) = (683, 384) and flip the y axis. */
  function ClientToLogical(client: Point): (logical: Point)
    ensures client == Point(Width / 2, Height / 2) <==> logical == Point(0, 0)
    ensures client.y < Height / 2 <==> logical.y > 0
  {
    Point(client.x - Width / 2, Height / 2 - client.y)
  }

  /** Logical coordinates back to client coordinates; the exact inverse of
      ClientToLogical. */
  function LogicalToClient(logical: Point): (client: Point)
    ensures ClientToLogical(client) == logical
  {
    Point(logical.x + Width / 2, Height / 2 - logical.y)
  }

  /** The other direction of the round trip: every client point is recovered
      from its logical image. */
  lemma ClientRoundTrip(client: Point)
    ensures LogicalToClient(ClientToLogical(client)) == client
  {
  }

  /** Both maps are bijections on the integer plane. */
  lemma TransformsAreBijections(a: Point, b: Point)
    ensures ClientToLogical(a) == ClientToLogical(b) <==> a == b
    ensures LogicalToClient(a) == LogicalToClient(b) <==> a == b
  {
    ClientRoundTrip(a);
    ClientRoundTrip(b);
  }
}
