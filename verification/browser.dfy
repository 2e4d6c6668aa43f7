/**
 * The web browser application (assets/components/apps/BrowserApp.tsx): the
 * address bar, a linear history with a current index, and back/forward.
 * The page itself is an iframe and is not modelled; the 500 ms loading timer
 * is the separate `LoadingDone` step.
 */
module Browser {
  import opened Wrappers
  import opened Text

  const DefaultUrl := "https://example.com"
  const SecurePrefix := "https://"
  const IframeErrorText := "Unable to load this website. Some sites block being displayed in iframes for security reasons."

  /** The test `/^https?:\/\//i`: the text begins with "http://" or "https://", in any letter case. */
  predicate HasScheme(s: string) {
    StartsWith(Lower(s), "http://") || StartsWith(Lower(s), "https://")
  }

  /** The address a navigation goes to: unchanged when it has a scheme, else prefixed with "https://". */
  function NormalizeUrl(s: string): (r: string)
    ensures HasScheme(r)
    ensures HasScheme(s) ==> r == s
    ensures !HasScheme(s) ==> r == SecurePrefix + s
  {
    if HasScheme(s) then s
    else
      var r := SecurePrefix + s;
      assert Lower(r)[..8] == SecurePrefix;
      r
  }

  /** Normalising twice is normalising once. */
  lemma NormalizeIdempotent(s: string)
    ensures NormalizeUrl(NormalizeUrl(s)) == NormalizeUrl(s)
  {
  }

  /** A scheme in upper case is kept as typed, not prefixed again. */
  lemma UpperCaseSchemeKept()
    ensures NormalizeUrl("HTTP://a") == "HTTP://a"
  {
    assert Lower("HTTP://a")[..7] == "http://";
  }

  /** A bare host name gets the secure scheme. */
  lemma BareHostPrefixed()
    ensures NormalizeUrl("github.com") == "https://github.com"
  {
    assert Lower("github.com")[..7] != "http://" by {
      assert Lower("github.com")[0] == 'g';
    }
    assert Lower("github.com")[..8] != "https://" by {
      assert Lower("github.com")[0] == 'g';
    }
  }

  class BrowserApp {
    var url: string
    var inputUrl: string
    var history: seq<string>
    var currentHistoryIndex: int
    var loading: bool
    var error: Option<string>

    /**
     * The index points into the history (or is -1 while it is empty), and
     * once an entry is current the shown page is that entry.
     */
    ghost predicate Valid()
      reads this
    {
      && -1 <= currentHistoryIndex < |history|
      && (|history| > 0 ==> currentHistoryIndex >= 0)
      && (currentHistoryIndex >= 0 ==> url == history[currentHistoryIndex])
      && (|history| == 0 ==> url == DefaultUrl)
    }

    constructor ()
      ensures url == DefaultUrl && inputUrl == DefaultUrl
      ensures history == [] && currentHistoryIndex == -1
      ensures !loading && error == None
      ensures Valid()
    {
      url := DefaultUrl;
      inputUrl := DefaultUrl;
      history := [];
      currentHistoryIndex := -1;
      loading := false;
      error := None;
    }

    /** The mount effect: an empty history becomes the default page, made current. */
    method Init()
      requires Valid()
      modifies this
      ensures Valid()
      ensures old(history) == [] ==> history == [DefaultUrl] && currentHistoryIndex == 0
      ensures old(history) != [] ==> history == old(history) && currentHistoryIndex == old(currentHistoryIndex)
      ensures url == old(url) && inputUrl == old(inputUrl)
      ensures loading == old(loading) && error == old(error)
    {
      if |history| == 0 {
        history := [DefaultUrl];
        currentHistoryIndex := 0;
      }
    }

    method InputChange(text: string)
      modifies this
      ensures inputUrl == text
      ensures url == old(url) && history == old(history) && currentHistoryIndex == old(currentHistoryIndex)
      ensures loading == old(loading) && error == old(error)
    {
      inputUrl := text;
    }

    /**
     * Navigation: the normalised address replaces every entry after the
     * current one and becomes current; nothing is left to go forward to.
     */
    method NavigateTo(newUrl: string)
      requires Valid()
      modifies this
      ensures Valid()
      ensures history == old(history)[..old(currentHistoryIndex) + 1] + [NormalizeUrl(newUrl)]
      ensures currentHistoryIndex == old(currentHistoryIndex) + 1 == |history| - 1
      ensures url == NormalizeUrl(newUrl) && inputUrl == url
      ensures loading && error == None
    {
      loading := true;
      error := None;
      var processedUrl := newUrl;
      if !HasScheme(processedUrl) {
        processedUrl := SecurePrefix + processedUrl;
      }
      if currentHistoryIndex != |history| - 1 {
        var newHistory := history[..currentHistoryIndex + 1];
        history := newHistory + [processedUrl];
      } else {
        assert history[..currentHistoryIndex + 1] == history;
        history := history + [processedUrl];
      }
      currentHistoryIndex := currentHistoryIndex + 1;
      url := processedUrl;
      inputUrl := processedUrl;
    }

    /** Submitting the address bar navigates to what it holds. */
    method Submit()
      requires Valid()
      modifies this
      ensures Valid()
      ensures history == old(history)[..old(currentHistoryIndex) + 1] + [NormalizeUrl(old(inputUrl))]
      ensures url == NormalizeUrl(old(inputUrl)) && inputUrl == url
    {
      NavigateTo(inputUrl);
    }

    /** Back: one entry earlier, if there is one. */
    method GoBack()
      requires Valid()
      modifies this
      ensures Valid()
      ensures old(currentHistoryIndex) > 0 ==>
        currentHistoryIndex == old(currentHistoryIndex) - 1 && url == history[currentHistoryIndex] && inputUrl == url
      ensures old(currentHistoryIndex) <= 0 ==>
        currentHistoryIndex == old(currentHistoryIndex) && url == old(url) && inputUrl == old(inputUrl)
      ensures history == old(history) && loading == old(loading) && error == old(error)
    {
      if currentHistoryIndex > 0 {
        var newIndex := currentHistoryIndex - 1;
        currentHistoryIndex := newIndex;
        url := history[newIndex];
        inputUrl := history[newIndex];
      }
    }

    /** Forward: one entry later, if there is one. */
    method GoForward()
      requires Valid()
      modifies this
      ensures Valid()
      ensures old(currentHistoryIndex) < |history| - 1 ==>
        currentHistoryIndex == old(currentHistoryIndex) + 1 && url == history[currentHistoryIndex] && inputUrl == url
      ensures old(currentHistoryIndex) >= |history| - 1 ==>
        currentHistoryIndex == old(currentHistoryIndex) && url == old(url) && inputUrl == old(inputUrl)
      ensures history == old(history) && loading == old(loading) && error == old(error)
    {
      if currentHistoryIndex < |history| - 1 {
        var newIndex := currentHistoryIndex + 1;
        currentHistoryIndex := newIndex;
        url := history[newIndex];
        inputUrl := history[newIndex];
      }
    }

    /** The loading timer firing. */
    method LoadingDone()
      modifies this
      ensures !loading
      ensures url == old(url) && inputUrl == old(inputUrl) && history == old(history)
      ensures currentHistoryIndex == old(currentHistoryIndex) && error == old(error)
    {
      loading := false;
    }

    /** The iframe reporting a load failure. */
    method IframeError()
      modifies this
      ensures error == Some(IframeErrorText) && !loading
      ensures url == old(url) && inputUrl == old(inputUrl) && history == old(history)
      ensures currentHistoryIndex == old(currentHistoryIndex)
    {
      error := Some(IframeErrorText);
      loading := false;
    }
  }

  /** Back then forward returns to the page the user was on. */
  method BackThenForward(b: BrowserApp)
    requires b.Valid() && b.currentHistoryIndex > 0
    modifies b
    ensures b.url == old(b.url) && b.currentHistoryIndex == old(b.currentHistoryIndex)
    ensures b.history == old(b.history)
  {
    b.GoBack();
    b.GoForward();
  }

  /** After going back and navigating, the entries that were ahead are gone. */
  method NavigateDropsForward(b: BrowserApp, target: string)
    requires b.Valid() && b.currentHistoryIndex > 0
    modifies b
    ensures |b.history| == old(b.currentHistoryIndex) + 1
    ensures b.history[..|b.history| - 1] == old(b.history)[..old(b.currentHistoryIndex)]
    ensures b.url == NormalizeUrl(target)
  {
    b.GoBack();
    b.NavigateTo(target);
  }
}
