/** Names shared by the page and its settings popover: the packages the
    helper can diff, the native-language variants, and two string constants.
    The constants module of the application is not part of this model; the
    values below are taken as its strings, and the proofs rely only on
    DefaultAppName being non-empty. */
module Constants {

  /** A value that may be `undefined` in the application. */
  datatype Option<+T> = None | Some(value: T) {

    /** The value if defined, else `default` (the `x === undefined ? default : x` idiom). */
    function GetOr(default: T): T {
      match this
      case Some(v) => v
      case None => default
    }
  }

  /** PACKAGE_NAMES: react-native, react-native-windows, react-native-macos. */
  datatype Package = RN | RNW | RNM

  /** LANGUAGE_NAMES: the native-code variant; only react-native-windows offers C#. */
  datatype Language = Cpp | Cs

  /** DEFAULT_APP_NAME: the app name a diff is rendered with when none was typed. */
  const DefaultAppName: string := "RnDiffApp"

  /** SHOW_LATEST_RCS: the name of the only settings checkbox. */
  const ShowLatestRcs: string := "Show latest release candidates"
}
