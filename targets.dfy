// The platform choices of the uploader window (AssetBundleUploaderTab.UploaderTarget
// and AssetBundleUploaderTab.ServerType), shared by the list, the uploader and the window.
module Targets {

  /** A single platform, or `All` for the fan-out over Windows, Android and iOS. */
  datatype UploaderTarget = All | Windows | Android | iOS

  datatype ServerType = DevelopmentServer | StagingServer | ProductonServer

  /** The server's position in the window's server list ((int)_serverType). */
  function ServerIndex(t: ServerType): (i: nat)
    ensures i < 3
  {
    match t
    case DevelopmentServer => 0
    case StagingServer => 1
    case ProductonServer => 2
  }

  /** The folder and URL segment name of a single platform. */
  function PlatformName(t: UploaderTarget): string
    requires t != All
  {
    match t
    case Windows => "StandaloneWindows"
    case Android => "Android"
    case iOS => "iOS"
  }
}
