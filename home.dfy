/** The page component: the current selection (package, language, version
    pair, app name, settings), the handlers that change it, the write to the
    shareable URL that a package or language change makes, and the wiring of
    the settings popover into the page. */
module HomePage {
  import opened Constants
  import opened Settings

  /** The two-part app name: what the input shows, and what the diff is rendered with. */
  datatype AppName = AppName(input: string, diff: string)

  /** The argument of one `updateURL` call. */
  datatype UrlUpdate = UrlUpdate(packageName: Package, language: Language,
                                 isPackageNameDefinedInURL: bool,
                                 toVersion: string, fromVersion: string)

  /** The `reduce` of `handleSettingsChange`: an object holding `true` under
      every checked name and nothing else. */
  method NormalizeSettings(values: seq<string>) returns (acc: map<string, bool>)
    ensures forall k :: k in acc <==> k in values
    ensures forall k :: k in acc ==> acc[k]
  {
    acc := map[];
    var i := 0;
    while i < |values|
      invariant 0 <= i <= |values|
      invariant forall k :: k in acc <==> k in values[..i]
      invariant forall k :: k in acc ==> acc[k]
    {
      assert values[..i + 1] == values[..i] + [values[i]];
      acc := acc[values[i] := true];
      i := i + 1;
    }
    assert values[..i] == values;
  }

  class Home {
    /** From the URL at load time: whether the package was named there. */
    const isPackageNameDefinedInURL: bool
    var packageName: Package
    var language: Language
    var fromVersion: string
    var toVersion: string
    var shouldShowDiff: bool
    var settings: map<string, bool>
    var appName: AppName
    /** Every `updateURL` call made so far, oldest first. */
    ghost var urlWrites: seq<UrlUpdate>

    /** The diff is rendered with a non-empty name; the diff is shown exactly
        when the versions differ, and with no diff shown both are empty; the
        last URL write carries the current package and language. */
    ghost predicate Valid()
      reads this
    {
      appName.diff != "" &&
      (shouldShowDiff <==> fromVersion != toVersion) &&
      (!shouldShowDiff ==> fromVersion == "" && toVersion == "") &&
      (urlWrites != [] ==>
        urlWrites[|urlWrites| - 1].packageName == packageName &&
        urlWrites[|urlWrites| - 1].language == language)
    }

    /** Mounting, with what the URL hooks read as parameters. */
    constructor (defaultPackageName: Package, isPackageNameDefinedInURL: bool, defaultLanguage: Language)
      ensures Valid()
      ensures this.isPackageNameDefinedInURL == isPackageNameDefinedInURL
      ensures packageName == defaultPackageName && language == defaultLanguage
      ensures fromVersion == "" && toVersion == "" && !shouldShowDiff
      ensures settings == map[ShowLatestRcs := false] && ShowReleaseCandidates() == Some(false)
      ensures appName == AppName("", DefaultAppName)
      ensures urlWrites == []
    {
      this.isPackageNameDefinedInURL := isPackageNameDefinedInURL;
      packageName := defaultPackageName;
      language := defaultLanguage;
      fromVersion := "";
      toVersion := "";
      shouldShowDiff := false;
      settings := map[ShowLatestRcs := false];
      appName := AppName("", DefaultAppName);
      urlWrites := [];
    }

    /** What the version selector is told about release candidates:
        `settings[SHOW_LATEST_RCS]`, which is `undefined` (`None`) when the
        key is missing. */
    function ShowReleaseCandidates(): (r: Option<bool>)
      reads this
      ensures r.Some? <==> ShowLatestRcs in settings
      ensures r.Some? ==> r.value == settings[ShowLatestRcs]
    {
      if ShowLatestRcs in settings then Some(settings[ShowLatestRcs]) else None
    }

    /** `handleShowDiff`: equal versions change nothing; distinct versions are
        stored, the diff is shown, and the typed app name moves to the diff
        (the default when nothing was typed) while the input is cleared. */
    method HandleShowDiff(from: string, to: string)
      requires Valid()
      modifies this
      ensures Valid()
      ensures from == to ==> unchanged(this)
      ensures from != to ==>
        fromVersion == from && toVersion == to && shouldShowDiff &&
        appName == AppName("", if old(appName.input) != "" then old(appName.input) else DefaultAppName)
      ensures packageName == old(packageName) && language == old(language)
      ensures settings == old(settings) && urlWrites == old(urlWrites)
    {
      if from == to {
        return;
      }
      appName := AppName("", if appName.input != "" then appName.input else DefaultAppName);
      fromVersion := from;
      toVersion := to;
      shouldShowDiff := true;
    }

    /** The app-name input: only the typed text changes. */
    method EditAppName(value: string)
      requires Valid()
      modifies this`appName
      ensures Valid()
      ensures appName == AppName(value, old(appName.diff))
    {
      appName := AppName(value, appName.diff);
    }

    /** `handlePackageNameAndLanguageChange`: an undefined part keeps the
        current value; the URL is written with the result and empty versions;
        the version pair is cleared and the diff hidden. */
    method HandlePackageNameAndLanguageChange(request: ChangeRequest)
      requires Valid()
      modifies this
      ensures Valid()
      ensures packageName == request.newPackageName.GetOr(old(packageName))
      ensures language == request.newLanguage.GetOr(old(language))
      ensures fromVersion == "" && toVersion == "" && !shouldShowDiff
      ensures urlWrites == old(urlWrites) + [UrlUpdate(packageName, language,
        isPackageNameDefinedInURL || request.newPackageName.Some?, "", "")]
      ensures settings == old(settings) && appName == old(appName)
    {
      var localPackageName := request.newPackageName.GetOr(packageName);
      var localLanguage := request.newLanguage.GetOr(language);
      urlWrites := urlWrites + [UrlUpdate(localPackageName, localLanguage,
        isPackageNameDefinedInURL || request.newPackageName.Some?, "", "")];
      packageName := localPackageName;
      language := localLanguage;
      fromVersion := "";
      toVersion := "";
      shouldShowDiff := false;
    }

    /** `handleSettingsChange`: the checked names replace the whole settings
        object, each set to true. */
    method HandleSettingsChange(values: seq<string>)
      requires Valid()
      modifies this`settings
      ensures Valid()
      ensures forall k :: k in settings <==> k in values
      ensures forall k :: k in settings ==> settings[k]
      ensures ShowReleaseCandidates() == if ShowLatestRcs in values then Some(true) else None
    {
      settings := NormalizeSettings(values);
    }
  }

  /** The page with its settings popover mounted in the header: the popover
      receives the page's current package and language, its close callback is
      the page's package/language handler, and its checkbox group feeds the
      page's settings handler. */
  class Page {
    const home: Home
    const popover: SettingsPopover

    ghost predicate Valid()
      reads this, home
    {
      home.Valid()
    }

    constructor (defaultPackageName: Package, isPackageNameDefinedInURL: bool, defaultLanguage: Language)
      ensures Valid() && fresh(home) && fresh(popover)
      ensures home.packageName == defaultPackageName && home.language == defaultLanguage
      ensures home.isPackageNameDefinedInURL == isPackageNameDefinedInURL
      ensures home.fromVersion == "" && home.toVersion == "" && !home.shouldShowDiff
      ensures home.appName == AppName("", DefaultAppName) && home.urlWrites == []
      ensures !popover.popoverVisibility
      ensures popover.newPackageName == defaultPackageName && popover.newLanguage == defaultLanguage
    {
      var h := new Home(defaultPackageName, isPackageNameDefinedInURL, defaultLanguage);
      home := h;
      popover := new SettingsPopover(h.packageName, h.language);
    }

    /** Opening the popover touches nothing but its visibility. */
    method OpenSettings()
      requires Valid()
      modifies popover`popoverVisibility
      ensures Valid() && popover.popoverVisibility
    {
      var request := popover.HandleClickChange(true, home.packageName, home.language);
    }

    /** Closing the popover: afterwards the page shows the pending package
        and the processed language, so C# can survive only on
        react-native-windows. The page's handler runs exactly when that is a
        change, and then the version pair is cleared and the URL written. */
    method CloseSettings() returns (fired: bool)
      requires Valid()
      modifies home, popover`popoverVisibility
      ensures Valid() && !popover.popoverVisibility
      ensures home.packageName == popover.newPackageName
      ensures home.language == ProcessedLanguage(popover.newPackageName, popover.newLanguage, old(home.language))
      ensures home.packageName != RNW ==> home.language == Cpp
      ensures fired <==> home.packageName != old(home.packageName) || home.language != old(home.language)
      ensures !fired ==> unchanged(home)
      ensures fired ==> home.fromVersion == "" && home.toVersion == "" && !home.shouldShowDiff
      ensures fired ==> home.urlWrites == old(home.urlWrites) + [UrlUpdate(home.packageName, home.language,
        home.isPackageNameDefinedInURL || home.packageName != old(home.packageName), "", "")]
      ensures home.appName == old(home.appName) && home.settings == old(home.settings)
    {
      var request := popover.HandleClickChange(false, home.packageName, home.language);
      fired := request.Some?;
      if fired {
        home.HandlePackageNameAndLanguageChange(request.value);
      }
    }

    /** The checkbox group: its values go to the page's settings handler unchanged. */
    method UpdateCheckboxValues(values: seq<string>)
      requires Valid()
      modifies home`settings
      ensures Valid()
      ensures forall k :: k in home.settings <==> k in values
      ensures forall k :: k in home.settings ==> home.settings[k]
    {
      home.HandleSettingsChange(values);
    }
  }

  /** The example of switching a react-native diff to react-native-windows
      with C#: the diff is hidden, the versions cleared and the URL written
      without them; closing the popover again with nothing changed turns the
      language back to C++ and writes the URL again. */
  method SwitchToWindowsCSharpAndReclose() returns (page: Page)
    ensures page.Valid()
    ensures page.home.packageName == RNW && page.home.language == Cpp
    ensures |page.home.urlWrites| == 2
    ensures page.home.urlWrites[0] == UrlUpdate(RNW, Cs, true, "", "")
    ensures page.home.urlWrites[1] == UrlUpdate(RNW, Cpp, true, "", "")
  {
    page := new Page(RN, true, Cpp);
    page.home.HandleShowDiff("0.70", "0.71");
    assert page.home.shouldShowDiff;
    page.OpenSettings();
    page.popover.SelectLanguage(Cs);
    var fired := page.CloseSettings();
    assert fired && page.home.packageName == RNW && page.home.language == Cs;
    assert !page.home.shouldShowDiff && page.home.fromVersion == "";
    page.OpenSettings();
    fired := page.CloseSettings();
    assert fired;
  }
}
