/** The records every window shares through the "windowData" key, and the
    four numbers a window reads about itself from its host. */
module Types {

  datatype Option<+T> = None | Some(value: T)

  /** A window's screen position and inner size, in whole pixels. */
  datatype Dimensions = Dimensions(x: int, y: int, width: int, height: int)

  /** One registry entry: the window's id and its last published geometry. */
  datatype WindowData = WindowData(id: string, dimensions: Dimensions)

  /** The host queries `screenLeft`, `screenTop`, `innerWidth` and
      `innerHeight` of the window running this code, taken as inputs. */
  datatype Host = Host(screenLeft: int, screenTop: int, innerWidth: int, innerHeight: int)

  /** The geometry a window publishes for itself. */
  function ThisWindowDimensions(h: Host): Dimensions
  {
    Dimensions(h.screenLeft, h.screenTop, h.innerWidth, h.innerHeight)
  }
}
