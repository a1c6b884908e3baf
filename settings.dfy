/** The settings popover of the page header: a checkbox group forwarded to
    the page, and a pending choice of package and language that is handed to
    the page only when the popover closes. */
module Settings {
  import opened Constants

  /** The argument of `onChangePackageNameAndLanguage`; `None` is `undefined`. */
  datatype ChangeRequest = ChangeRequest(newPackageName: Option<Package>, newLanguage: Option<Language>)

  /** `processedNewLanguage`: the pending language survives only when it is a
      change and the pending package is react-native-windows; in every other
      case the language sent to the page is C++. */
  function ProcessedLanguage(newPackageName: Package, newLanguage: Language, language: Language): (r: Language)
    ensures r == Cpp || r == newLanguage
    ensures r != Cpp <==> newPackageName == RNW && newLanguage != language && newLanguage != Cpp
  {
    if newLanguage != language && newPackageName == RNW then newLanguage else Cpp
  }

  /** What closing the popover asks of the page, given the pending choice and
      the page's current package and language: `None` when the callback is not
      called. The callback fires exactly when the page would change; the
      package is sent only when it differs, the processed language always. */
  function CloseRequest(newPackageName: Package, newLanguage: Language,
                        packageName: Package, language: Language): (r: Option<ChangeRequest>)
    ensures r.None? <==>
      newPackageName == packageName && ProcessedLanguage(newPackageName, newLanguage, language) == language
    ensures r.Some? ==> r.value.newLanguage == Some(ProcessedLanguage(newPackageName, newLanguage, language))
    ensures r.Some? ==> (r.value.newPackageName.Some? <==> newPackageName != packageName)
    ensures r.Some? ==> r.value.newPackageName.GetOr(packageName) == newPackageName
  {
    var processed := ProcessedLanguage(newPackageName, newLanguage, language);
    if newPackageName != packageName || processed != language then
      Some(ChangeRequest(if newPackageName != packageName then Some(newPackageName) else None, Some(processed)))
    else
      None
  }

  /** Closing with a pending choice equal to the current one still fires when
      the current language is not C++, and then asks for C++. */
  lemma UnchangedCloseResetsToCpp(packageName: Package, language: Language)
    requires language != Cpp
    ensures CloseRequest(packageName, language, packageName, language) == Some(ChangeRequest(None, Some(Cpp)))
  {
  }

  /** With C# pending on react-native-windows, every close fires and flips
      the page's language between C# and C++. */
  lemma PendingCSharpTogglesLanguage(packageName: Package, language: Language)
    ensures CloseRequest(RNW, Cs, packageName, language).Some?
    ensures ProcessedLanguage(RNW, Cs, language) == if language == Cs then Cpp else Cs
  {
  }

  class SettingsPopover {
    var popoverVisibility: bool
    var newPackageName: Package
    var newLanguage: Language

    /** Mounting: the popover is closed and the pending choice is the page's. */
    constructor (packageName: Package, language: Language)
      ensures !popoverVisibility && newPackageName == packageName && newLanguage == language
    {
      popoverVisibility := false;
      newPackageName := packageName;
      newLanguage := language;
    }

    /** The package radio group: only the pending package changes. */
    method SelectPackage(p: Package)
      modifies this`newPackageName
      ensures newPackageName == p
      ensures p != RNW ==> SelectedLanguageButton() == None
    {
      newPackageName := p;
    }

    /** The C++/C# buttons under react-native-windows: they select that package too. */
    method SelectLanguage(l: Language)
      modifies this`newPackageName, this`newLanguage
      ensures newPackageName == RNW && newLanguage == l
      ensures SelectedLanguageButton() == Some(l)
    {
      newPackageName := RNW;
      newLanguage := l;
    }

    /** The button highlighted in the C++/C# group: none unless
        react-native-windows is the pending package. */
    function SelectedLanguageButton(): (r: Option<Language>)
      reads this
      ensures r.Some? <==> newPackageName == RNW
      ensures r.Some? ==> r.value == newLanguage
    {
      if newPackageName == RNW then Some(newLanguage) else None
    }

    /** `handleClickChange`, called with the page's current package and
        language: records the visibility, and on a close returns the request
        the callback receives (`None` when it is not called). Opening never
        calls it. */
    method HandleClickChange(visibility: bool, packageName: Package, language: Language)
      returns (request: Option<ChangeRequest>)
      modifies this`popoverVisibility
      ensures popoverVisibility == visibility
      ensures visibility ==> request.None?
      ensures !visibility ==> request == CloseRequest(newPackageName, newLanguage, packageName, language)
    {
      popoverVisibility := visibility;
      var processed := ProcessedLanguage(newPackageName, newLanguage, language);
      request := None;
      if !visibility && (newPackageName != packageName || processed != language) {
        request := Some(ChangeRequest(
          if newPackageName != packageName then Some(newPackageName) else None,
          Some(processed)));
      }
    }
  }
}
