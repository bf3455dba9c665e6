/** The window size and the speed cap of include/constants.hpp. The window is
    the toroidal domain; its unsigned extents are converted to double where
    the simulation uses them. */
module Constants {

  const WindowWidth: real := 1200.0
  const WindowHeight: real := 800.0

  const MaxVelocity: real := 10.0
}
