/**
 * What the chat panel's video fetch settles to, as a function of the
 * provider's response (components/chat-panel.tsx, `fetchVideos`).
 */
module VideoSearch {

  /** One entry of the provider's `videos` array. */
  datatype Video = Video(title: string, link: string, thumbnail: string, duration: string)

  /** The `videos` property of the parsed response body. */
  datatype VideosField =
    | Missing                      // the property is absent (`undefined`)
    | NotArray                     // present, but `Array.isArray` is false
    | Array(items: seq<Video>)

  /** How the request ends. */
  datatype Response =
    | Failed                       // `fetch` rejected or `response.json()` threw
    | NullBody                     // the body is JSON `null`: reading `.videos` throws
    | Body(videos: VideosField)

  /** Fewer provider results than this count as insufficient; the panel keeps exactly this many. */
  const MinResults: nat := 5

  /** The decimal digit for `n`. */
  function Digit(n: nat): (c: char)
    requires n <= 9
    ensures '0' <= c <= '9' && c as int - '0' as int == n
  {
    ('0' as int + n) as char
  }

  /** The hard-coded list the panel shows when the provider call does not deliver. */
  function FallbackVideos(): (r: seq<Video>)
    ensures |r| == MinResults
  {
    [ Video("Video 1", "https://video1.example.com", "https://via.placeholder.com/300x200?text=Video+1", "3:45"),
      Video("Video 2", "https://video2.example.com", "https://via.placeholder.com/300x200?text=Video+2", "2:30"),
      Video("Video 3", "https://video3.example.com", "https://via.placeholder.com/300x200?text=Video+3", "4:15"),
      Video("Video 4", "https://video4.example.com", "https://via.placeholder.com/300x200?text=Video+4", "5:00"),
      Video("Video 5", "https://video5.example.com", "https://via.placeholder.com/300x200?text=Video+5", "1:30") ]
  }

  /** Entry `n` (1-based) of the fallback list, as its fields are patterned. */
  predicate IsFallbackEntry(v: Video, n: nat)
    requires 1 <= n <= 9
  {
    v.title == "Video " + [Digit(n)] &&
    v.link == "https://video" + [Digit(n)] + ".example.com" &&
    v.thumbnail == "https://via.placeholder.com/300x200?text=Video+" + [Digit(n)]
  }

  /**
   * The fallback entries are numbered 1 to 5 in order (title, link and
   * thumbnail all carry the number) with durations 3:45, 2:30, 4:15, 5:00, 1:30.
   */
  lemma FallbackShape()
    ensures forall i :: 0 <= i < MinResults ==> IsFallbackEntry(FallbackVideos()[i], i + 1)
    ensures Durations(FallbackVideos()) == ["3:45", "2:30", "4:15", "5:00", "1:30"]
  {
    forall i | 0 <= i < MinResults ensures IsFallbackEntry(FallbackVideos()[i], i + 1) {
      FallbackEntry(i);
    }
    var ds := Durations(FallbackVideos());
    assert ds[0] == "3:45" && ds[1] == "2:30" && ds[2] == "4:15" && ds[3] == "5:00" && ds[4] == "1:30";
  }

  /** Entry `i` (0-based) of the fallback list follows the numbered pattern. */
  lemma FallbackEntry(i: nat)
    requires i < MinResults
    ensures IsFallbackEntry(FallbackVideos()[i], i + 1)
  {
  }

  /** The durations of `vs`, in order. */
  function Durations(vs: seq<Video>): (ds: seq<string>)
    ensures |ds| == |vs| && forall i :: 0 <= i < |vs| ==> ds[i] == vs[i].duration
  {
    if vs == [] then [] else [vs[0].duration] + Durations(vs[1..])
  }

  /** The response carries a `videos` array with at least `MinResults` entries. */
  predicate Sufficient(resp: Response) {
    resp.Body? && resp.videos.Array? && |resp.videos.items| >= MinResults
  }

  /**
   * The value `videoResults` is set to once the fetch settles: the first five
   * provider entries when there are at least five, otherwise (or on any
   * exception) the fallback list.
   */
  function SelectVideos(resp: Response): (r: seq<Video>)
    ensures |r| == MinResults
    ensures Sufficient(resp) ==> forall i :: 0 <= i < |r| ==> r[i] == resp.videos.items[i]
    ensures !Sufficient(resp) ==> r == FallbackVideos()
  {
    match resp
    case Body(Array(items)) =>
      if |items| < MinResults then FallbackVideos() else items[..MinResults]
    case _ => FallbackVideos()  // a non-array `videos` counts as empty, hence short
  }

  /** On the live path the result is a prefix of the provider's list, so provider order is kept. */
  lemma LiveResultIsPrefix(resp: Response)
    requires Sufficient(resp)
    ensures SelectVideos(resp) <= resp.videos.items
    ensures SelectVideos(resp) == resp.videos.items[..MinResults]
  {
  }

  /** Feeding a settled list back as a provider response reproduces it. */
  lemma SelectVideosFixpoint(resp: Response)
    ensures SelectVideos(Body(Array(SelectVideos(resp)))) == SelectVideos(resp)
  {
  }

  /** A provider list of eight entries settles to its first five. */
  lemma EightResultsTruncated(a: Video, b: Video, c: Video, d: Video, e: Video, f: Video, g: Video, h: Video)
    ensures SelectVideos(Body(Array([a, b, c, d, e, f, g, h]))) == [a, b, c, d, e]
  {
  }

  /** Four provider entries are not enough: the fallback list is shown. */
  lemma FourResultsFallBack(a: Video, b: Video, c: Video, d: Video)
    ensures SelectVideos(Body(Array([a, b, c, d]))) == FallbackVideos()
  {
  }
}
