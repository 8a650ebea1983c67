/** The record shared by every component: one developed print. */
module Types {

  datatype Option<T> = None | Some(value: T)

  /** A print as the gallery stores it. `rotation` is a tilt in degrees, fixed at creation. */
  datatype Photo = Photo(id: string, dataUrl: string, timestamp: string, caption: string, rotation: real)
}
