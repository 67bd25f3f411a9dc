/** Option, the model of Swift's `T?`. */
module Wrappers {
  datatype Option<+T> = None | Some(value: T)
  {
    /** `self ?? fallback` */
    function GetOr(fallback: T): T
    {
      match this
      case Some(v) => v
      case None => fallback
    }
  }
}

/**
 * A SwiftUI `@State` storage cell. A `@Binding` handed to a child view is a
 * reference to the same cell, so a write by either view is seen by both.
 */
module Bindings {
  class Binding<T> {
    var value: T

    constructor (initial: T)
      ensures value == initial
    {
      value := initial;
    }
  }
}

/** The named colours the core components choose between. */
module Palette {
  datatype Color =
    | Accent        // `.accent`
    | DefaultBorder // `.defaultBorder`
    | Green         // `.green`
    | Red           // `.red`
    | Clear         // `.clear`
    | Gray          // `.gray`
    | Named(name: string)  // any other theme colour, e.g. `.textSecondaryDark`
}
