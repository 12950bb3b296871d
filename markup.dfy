/** What the client reads from fetched HTML pages. Parsing and CSS selection
    are outside the model: a page arrives as the element sequences its four
    fixed selectors match, in document order. Each scan below is a loop in the
    client and is written here as a method proved equal to a specification
    function, whose properties are the lemmas that follow it. */
module Markup {
  import opened Common
  import opened Text

  /** An HTML element: its attributes and its text nodes, in document order. */
  datatype Element = Element(attributes: map<string, string>, texts: seq<string>)

  function Attr(e: Element, name: string): Option<string>
  {
    if name in e.attributes then Some(e.attributes[name]) else None
  }

  /** The element's text nodes joined by single spaces. */
  function TextOf(e: Element): string
  {
    Join(e.texts, " ")
  }

  /** A parsed page, reduced to the matches of the selectors the client uses:
      `ul a`, `div[id^=vhi-root-]`, `h2` and `script`. */
  datatype Document = Document(
    listAnchors: seq<Element>,
    playerRoots: seq<Element>,
    headings: seq<Element>,
    scripts: seq<Element>)

  // ---------------------------------------------------------------------
  // Link discovery

  /** The `href` of an anchor, as a list of zero or one link. */
  function HrefOf(e: Element): seq<string>
  {
    match Attr(e, "href")
    case Some(h) => [h]
    case None => []
  }

  /** The `href` values of the anchors, in document order; anchors without
      one contribute nothing. */
  function Hrefs(anchors: seq<Element>): (links: seq<string>)
    ensures |links| <= |anchors|
    decreases |anchors|
  {
    if anchors == [] then []
    else Hrefs(anchors[..|anchors| - 1]) + HrefOf(anchors[|anchors| - 1])
  }

  /** Link discovery distributes over concatenation of documents: together
      with the one-anchor case it says the links keep document order. */
  lemma {:induction false} HrefsAppend(a: seq<Element>, b: seq<Element>)
    ensures Hrefs(a + b) == Hrefs(a) + Hrefs(b)
    decreases |b|
  {
    if b == [] {
      assert a + b == a;
    } else {
      var front := b[..|b| - 1];
      assert (a + b)[..|a + b| - 1] == a + front;
      assert (a + b)[|a + b| - 1] == b[|b| - 1];
      HrefsAppend(a, front);
    }
  }

  /** When every anchor has an `href`, the links are exactly those values,
      one per anchor and position by position. */
  lemma {:induction false} HrefsAllPresent(anchors: seq<Element>)
    requires forall i :: 0 <= i < |anchors| ==> "href" in anchors[i].attributes
    ensures |Hrefs(anchors)| == |anchors|
    ensures forall i :: 0 <= i < |anchors| ==> Hrefs(anchors)[i] == anchors[i].attributes["href"]
    decreases |anchors|
  {
    if anchors != [] {
      var front := anchors[..|anchors| - 1];
      var last := anchors[|anchors| - 1];
      HrefsAllPresent(front);
      assert Hrefs(anchors) == Hrefs(front) + [last.attributes["href"]];
      forall i | 0 <= i < |anchors|
        ensures Hrefs(anchors)[i] == anchors[i].attributes["href"]
      {
        if i < |front| {
          assert front[i] == anchors[i];
        }
      }
    }
  }

  /** Anchors without `href` never yield a link: a document with none of
      them yields the empty list. */
  lemma {:induction false} HrefsNoneEmpty(anchors: seq<Element>)
    requires forall i :: 0 <= i < |anchors| ==> "href" !in anchors[i].attributes
    ensures Hrefs(anchors) == []
    decreases |anchors|
  {
    if anchors != [] {
      HrefsNoneEmpty(anchors[..|anchors| - 1]);
    }
  }

  /** The loop of link discovery: push each anchor's `href` in turn. */
  method CollectHrefs(anchors: seq<Element>) returns (items: seq<string>)
    ensures items == Hrefs(anchors)
  {
    items := [];
    for i := 0 to |anchors|
      invariant items == Hrefs(anchors[..i])
    {
      assert anchors[..i + 1][..i] == anchors[..i];
      match Attr(anchors[i], "href") {
        case Some(href) => items := items + [href];
        case None =>
      }
    }
    assert anchors[..|anchors|] == anchors;
  }

  // ---------------------------------------------------------------------
  // Page resolution: player URL and title

  predicate HasPlayerSrc(e: Element)
  {
    "data-iframe-src" in e.attributes
  }

  /** Container `i` is the first one that has a player source. */
  predicate FirstWithSrc(roots: seq<Element>, i: int)
  {
    0 <= i < |roots| && HasPlayerSrc(roots[i]) &&
    forall j :: 0 <= j < i ==> !HasPlayerSrc(roots[j])
  }

  /** The `data-iframe-src` of the first player container that has one, or
      the empty string when none has it. */
  function PlayerUrl(roots: seq<Element>): (url: string)
    ensures forall i :: FirstWithSrc(roots, i) ==> url == roots[i].attributes["data-iframe-src"]
    ensures (forall i :: 0 <= i < |roots| ==> !HasPlayerSrc(roots[i])) ==> url == ""
    decreases |roots|
  {
    if roots == [] then ""
    else match Attr(roots[0], "data-iframe-src")
      case Some(u) => u
      case None =>
        assert forall i :: FirstWithSrc(roots, i) ==> FirstWithSrc(roots[1..], i - 1);
        PlayerUrl(roots[1..])
  }

  /** The search loop for the player URL: stop at the first container that
      carries the attribute, passing over those that do not. */
  method FindPlayerUrl(roots: seq<Element>) returns (url: string)
    ensures url == PlayerUrl(roots)
  {
    url := "";
    for i := 0 to |roots|
      invariant url == ""
      invariant forall j :: 0 <= j < i ==> !HasPlayerSrc(roots[j])
    {
      match Attr(roots[i], "data-iframe-src") {
        case Some(href) =>
          url := href;
          return;
        case None =>
      }
    }
  }

  /** The title: the text of the last heading, or the empty string when the
      page has none. */
  function LastHeading(headings: seq<Element>): string
  {
    if headings == [] then "" else TextOf(headings[|headings| - 1])
  }

  /** Earlier headings never influence the title once a later one exists. */
  lemma LastHeadingIgnoresEarlier(earlier: seq<Element>, later: seq<Element>)
    requires later != []
    ensures LastHeading(earlier + later) == LastHeading(later)
  {
    assert (earlier + later)[|earlier + later| - 1] == later[|later| - 1];
  }

  /** The heading loop: every heading overwrites the title. */
  method HeadingTitle(headings: seq<Element>) returns (title: string)
    ensures title == LastHeading(headings)
  {
    title := "";
    for i := 0 to |headings|
      invariant title == LastHeading(headings[..i])
    {
      title := TextOf(headings[i]);
    }
    assert headings[..|headings|] == headings;
  }

  // ---------------------------------------------------------------------
  // Master playlist URL from the inline configuration script

  /** The assignment that introduces the player configuration. */
  const ConfigMarker: string := "window.configs ="

  /** What the JSON step yields for the configuration text: not JSON, an
      object without `masterPlaylistUrl`, or that field serialised as JSON
      text (a string value keeps its surrounding quotes). */
  datatype ConfigLookup = NotJson | NoField | Field(serialised: string)

  predicate Marked(script: Element)
  {
    Contains(TextOf(script), ConfigMarker)
  }

  /** The configuration text: the script with every marker removed, trimmed. */
  function ConfigBody(text: string): (body: string)
    ensures Trimmed(body) && |body| <= |text|
  {
    Trim(RemoveAll(text, ConfigMarker))
  }

  /** The master playlist URL one marked script gives: the serialised field
      with its quotes deleted; unparsable text or a missing field panics. */
  function ExtractMasterUrl(parseConfig: string -> ConfigLookup, text: string): (r: Result<string>)
    ensures r.Ok? ==> '"' !in r.value
    ensures r.Fail? ==> r.fault.Panic?
  {
    match parseConfig(ConfigBody(text))
    case NotJson => Fail(Panic(ConfigNotJson))
    case NoField => Fail(Panic(NoMasterPlaylistUrl))
    case Field(v) => Ok(StripQuotes(v))
  }

  /** One turn of the script loop: unmarked scripts keep the current URL, a
      marked one replaces it. */
  function ScanStep(parseConfig: string -> ConfigLookup, current: string, script: Element): Result<string>
  {
    if !Marked(script) then Ok(current) else ExtractMasterUrl(parseConfig, TextOf(script))
  }

  /** The outcome of the script loop over `scripts`, starting from "". */
  function MasterPlaylistUrl(parseConfig: string -> ConfigLookup, scripts: seq<Element>): (r: Result<string>)
    ensures r.Ok? ==> '"' !in r.value
    ensures r.Fail? ==> r.fault.Panic?
    decreases |scripts|
  {
    if scripts == [] then Ok("")
    else match MasterPlaylistUrl(parseConfig, scripts[..|scripts| - 1])
      case Fail(f) => Fail(f)
      case Ok(u) => ScanStep(parseConfig, u, scripts[|scripts| - 1])
  }

  /** A panic ends the scan: later scripts cannot change the outcome. */
  lemma {:induction false} MasterUrlPanicSticky(pc: string -> ConfigLookup, scripts: seq<Element>, n: nat)
    requires n <= |scripts|
    requires MasterPlaylistUrl(pc, scripts[..n]).Fail?
    ensures MasterPlaylistUrl(pc, scripts) == MasterPlaylistUrl(pc, scripts[..n])
    decreases |scripts| - n
  {
    if n < |scripts| {
      var front := scripts[..|scripts| - 1];
      assert front[..n] == scripts[..n];
      MasterUrlPanicSticky(pc, front, n);
    } else {
      assert scripts[..n] == scripts;
    }
  }

  /** A script without the marker never affects the outcome, wherever it
      stands in the page. */
  lemma {:induction false} MasterUrlSkipsUnmarked(pc: string -> ConfigLookup, p: seq<Element>, x: Element, q: seq<Element>)
    requires !Marked(x)
    ensures MasterPlaylistUrl(pc, p + [x] + q) == MasterPlaylistUrl(pc, p + q)
    decreases |q|
  {
    if q == [] {
      assert (p + [x] + q)[..|p + [x] + q| - 1] == p;
      assert p + q == p;
    } else {
      var front := q[..|q| - 1];
      var last := q[|q| - 1];
      assert (p + [x] + q)[..|p + [x] + q| - 1] == p + [x] + front;
      assert (p + [x] + q)[|p + [x] + q| - 1] == last;
      assert (p + q)[..|p + q| - 1] == p + front;
      assert (p + q)[|p + q| - 1] == last;
      MasterUrlSkipsUnmarked(pc, p, x, front);
    }
  }

  /** With no marked script the URL stays empty. */
  lemma {:induction false} MasterUrlNoMarker(pc: string -> ConfigLookup, scripts: seq<Element>)
    requires forall i :: 0 <= i < |scripts| ==> !Marked(scripts[i])
    ensures MasterPlaylistUrl(pc, scripts) == Ok("")
    decreases |scripts|
  {
    if scripts != [] {
      MasterUrlNoMarker(pc, scripts[..|scripts| - 1]);
    }
  }

  /** The last marked script decides the URL, provided the scan got that far
      without a panic. */
  lemma {:induction false} MasterUrlLastMarkedWins(pc: string -> ConfigLookup, scripts: seq<Element>, k: nat)
    requires k < |scripts| && Marked(scripts[k])
    requires forall j :: k < j < |scripts| ==> !Marked(scripts[j])
    requires MasterPlaylistUrl(pc, scripts[..k]).Ok?
    ensures MasterPlaylistUrl(pc, scripts) == ExtractMasterUrl(pc, TextOf(scripts[k]))
    decreases |scripts|
  {
    var front := scripts[..|scripts| - 1];
    if k == |scripts| - 1 {
      assert front == scripts[..k];
    } else {
      assert front[..k] == scripts[..k];
      MasterUrlLastMarkedWins(pc, front, k);
    }
  }

  /** The script loop: skip unmarked scripts, and for each marked one strip
      the marker, trim, look up the field and delete its quotes. */
  method FindMasterPlaylistUrl(parseConfig: string -> ConfigLookup, scripts: seq<Element>)
    returns (r: Result<string>)
    ensures r == MasterPlaylistUrl(parseConfig, scripts)
  {
    var playlistUrl := "";
    for i := 0 to |scripts|
      invariant MasterPlaylistUrl(parseConfig, scripts[..i]) == Ok(playlistUrl)
    {
      assert scripts[..i + 1][..i] == scripts[..i];
      var text := TextOf(scripts[i]);
      if !Contains(text, ConfigMarker) {
        continue;
      }
      var body := Trim(RemoveAll(text, ConfigMarker));
      match parseConfig(body) {
        case NotJson =>
          r := Fail(Panic(ConfigNotJson));
          MasterUrlPanicSticky(parseConfig, scripts, i + 1);
          return;
        case NoField =>
          r := Fail(Panic(NoMasterPlaylistUrl));
          MasterUrlPanicSticky(parseConfig, scripts, i + 1);
          return;
        case Field(v) =>
          playlistUrl := StripQuotes(v);
      }
    }
    assert scripts[..|scripts|] == scripts;
    r := Ok(playlistUrl);
  }
}
