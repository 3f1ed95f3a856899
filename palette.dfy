/** The SwiftUI colors the views choose between. */
module Palette {
  datatype Color = Primary | White | Red | Yellow | Green | Orange | Blue | Purple | Pink | Cyan | Gray
}
