/**
 * `components/StreamlitEmbed.tsx`: an iframe for a Streamlit app.  The URL
 * always gets `embed=true`, the height starts at 800 and every accepted
 * message clamps to the fixed bounds 400 and 2000; the message listener is
 * always registered.
 */
module StreamlitEmbed {
  import opened Wrappers
  import opened EmbedMessages

  const MinHeight := 400
  const MaxHeight := 2000
  const InitialHeight := 800
  const EmbedParam := "embed=true"

  /** The iframe's `src`: the URL with `embed=true` added to its query. */
  function StreamlitUrl(url: string): (r: string)
    ensures r == EmbedUrl(url, Some(EmbedParam))
  {
    var r := if '?' in url then url + "&" + EmbedParam else url + "?" + EmbedParam;
    assert r[..|url|] == url && r[|url| + 1..] == EmbedParam;
    r
  }

  class StreamlitEmbed {
    const url: string
    /** `new URL(url).origin`; `None` when the URL does not parse. */
    const appOrigin: Option<string>
    var height: int
    var isLoading: bool
    var hasError: bool

    ghost predicate Valid()
      reads this
    {
      MinHeight <= height <= MaxHeight
    }

    constructor (url: string, appOrigin: Option<string>)
      ensures this.url == url && this.appOrigin == appOrigin
      ensures height == InitialHeight && isLoading && !hasError
      ensures Valid()
    {
      this.url := url;
      this.appOrigin := appOrigin;
      height := InitialHeight;
      isLoading := true;
      hasError := false;
    }

    /** `handleLoad`: a load clears an earlier error. */
    method HandleLoad()
      modifies this
      ensures !isLoading && !hasError && height == old(height)
    {
      isLoading := false;
      hasError := false;
    }

    /** `handleError`. */
    method HandleError()
      modifies this
      ensures !isLoading && hasError && height == old(height)
    {
      isLoading := false;
      hasError := true;
    }

    /** `handleMessage`. */
    method HandleMessage(eventOrigin: string, data: Message)
      requires Valid()
      modifies this
      ensures Valid()
      ensures height == HeightAfter(MinHeight, MaxHeight, old(height), appOrigin, eventOrigin, data)
      ensures isLoading == old(isLoading) && hasError == old(hasError)
    {
      if appOrigin.None? || eventOrigin != appOrigin.value {
        return;
      }
      match data {
        case ObjectMsg(kind, h) =>
          if kind == Some(SetFrameHeight) && h.Some? && h.value != 0 {
            height := Clamp(MinHeight, MaxHeight, h.value);
          } else if h.Some? && h.value != 0 {
            height := Clamp(MinHeight, MaxHeight, h.value);
          }
        case NumberMsg(n) =>
          if n > 0 {
            height := Clamp(MinHeight, MaxHeight, n);
          }
        case OtherMsg =>
      }
    }
  }

  /** From the initial 800 pixels, any sequence of messages leaves the height between 400 and 2000. */
  lemma HeightAlwaysInBounds(height: int, appOrigin: Option<string>, deliveries: seq<Delivery>)
    requires MinHeight <= height <= MaxHeight
    ensures MinHeight <= HeightAfterAll(MinHeight, MaxHeight, height, appOrigin, deliveries) <= MaxHeight
  {
    HeightAfterAllInRange(MinHeight, MaxHeight, height, appOrigin, deliveries);
  }

  /** A request for 5000 pixels gives 2000 and one for 50 gives 400. */
  lemma ClampExamples(origin: string)
    ensures HeightAfter(MinHeight, MaxHeight, InitialHeight, Some(origin), origin, NumberMsg(5000)) == 2000
    ensures HeightAfter(MinHeight, MaxHeight, InitialHeight, Some(origin), origin, ObjectMsg(None, Some(50))) == 400
  {
  }
}
