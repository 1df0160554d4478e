/** How the request handlers of main.py read a model reply that is meant to
    carry three marked sections (Spanish prompt, English prompt, video
    suggestion), with the fixed-slice fallbacks used when the markers are
    missing. */
module Sections {
  import opened Common
  import opened PyStr

  const EsMarker: string := "PROMPT_ES:"
  const EnMarker: string := "PROMPT_EN:"
  const VideoMarker: string := "PROMPT_VIDEO:"

  /** The camera suggestion used when the reply has none. */
  const DefaultVideo: string := "Zoom lento al sujeto, luz cálida suave, duración 5s."

  datatype Sections = Sections(es: string, en: string, video: string)

  /** What follows "PROMPT_ES:" read into its parts: the Spanish text up to
      "PROMPT_EN:", the English text from there up to "PROMPT_VIDEO:", and
      the text after "PROMPT_VIDEO:", each stripped. A part whose closing
      marker is missing is empty; the video part is absent without its
      marker. */
  datatype Marked = Marked(es: string, en: string, video: Option<string>)

  function ReadMarked(rest: string): (r: Marked)
    ensures !Contains(rest, EnMarker) ==> r.es == "" && r.en == ""
    ensures !Contains(rest, VideoMarker) ==> r.en == "" && r.video.None?
    ensures Contains(rest, EnMarker) && !Contains(SecondPart(rest, EnMarker), VideoMarker) ==> r.en == ""
    ensures Contains(rest, VideoMarker) ==> r.video.Some?
  {
    var es := if Contains(rest, EnMarker) then Strip(Split(rest, EnMarker)[0]) else "";
    var enPart := if Contains(rest, EnMarker) then SecondPart(rest, EnMarker) else "";
    var en := if Contains(enPart, VideoMarker) then Strip(Split(enPart, VideoMarker)[0]) else "";
    var video := if Contains(rest, VideoMarker) then Some(Strip(SecondPart(rest, VideoMarker))) else None;
    assert Contains(enPart, VideoMarker) ==> Contains(rest, VideoMarker) by {
      if Contains(enPart, VideoMarker) { SecondPartInside(rest, EnMarker, VideoMarker); }
    }
    Marked(es, en, video)
  }

  /** The three 200-character slices used when there is no "PROMPT_ES:". */
  function Slices(response: string): Sections {
    Sections(Slice(response, 0, 200), Slice(response, 200, 400), Slice(response, 400, 600))
  }

  /** The parse of the `/api/prompts-openrouter` handler: without a
      "PROMPT_EN:"-free video marker the video part is the English part. */
  function ReadDirect(response: string): (r: Sections)
    ensures !Contains(response, EsMarker) ==> r == Slices(response)
  {
    if Contains(response, EsMarker) then
      var m := ReadMarked(SecondPart(response, EsMarker));
      Sections(m.es, m.en, m.video.GetOr(m.en))
    else
      Slices(response)
  }

  /** The parse of the OpenRouter fallback inside `/api/generate-prompts`:
      without a video marker the video part is the default suggestion. */
  function ReadFallback(response: string): (r: Sections)
    ensures !Contains(response, EsMarker) ==> r == Slices(response)
  {
    if Contains(response, EsMarker) then
      var m := ReadMarked(SecondPart(response, EsMarker));
      Sections(m.es, m.en, m.video.GetOr(DefaultVideo))
    else
      Slices(response)
  }

  /** The `or` fallbacks applied to the parsed sections before they are
      returned: an empty Spanish part becomes `response[:150]`, an empty
      English part `response[150:300]`, an empty video part the default. */
  function Finish(response: string, s: Sections): (r: Sections)
    ensures r.video != ""
    ensures Truthy(s.es) ==> r.es == s.es
    ensures !Truthy(s.es) ==> r.es == Slice(response, 0, 150)
    ensures Truthy(s.en) ==> r.en == s.en
    ensures !Truthy(s.en) ==> r.en == Slice(response, 150, 300)
    ensures Truthy(s.video) ==> r.video == s.video
    ensures !Truthy(s.video) ==> r.video == DefaultVideo
  {
    Sections(if Truthy(s.es) then s.es else Slice(response, 0, 150),
             if Truthy(s.en) then s.en else Slice(response, 150, 300),
             if Truthy(s.video) then s.video else DefaultVideo)
  }

  // ------------------------------------------------------------ properties

  /** The three sections behind their markers, as the request asks for
      them, and a whole reply that starts with some other text. */
  function Layout(es: string, en: string, video: string): string {
    es + EnMarker + (en + VideoMarker + video)
  }

  function Reply(pre: string, es: string, en: string, video: string): string {
    pre + EsMarker + Layout(es, en, video)
  }

  /** The English and video parts of a layout whose video marker occurs
      only once. */
  lemma VideoTail(es: string, en: string, video: string)
    requires OnlyAt(Layout(es, en, video), VideoMarker, |es| + |EnMarker| + |en|)
    ensures OnlyAt(en + VideoMarker + video, VideoMarker, |en|)
    ensures Split(Layout(es, en, video), VideoMarker) == [es + EnMarker + en, video]
  {
    var tail := en + VideoMarker + video;
    OnlyAtSuffix(es + EnMarker, tail, VideoMarker, |es| + |EnMarker| + |en|);
    assert Layout(es, en, video) == (es + EnMarker + en) + VideoMarker + video;
    SplitOnlyOnce(es + EnMarker + en, VideoMarker, video);
  }

  /** A layout with each marker exactly once, in order, reads back as the
      stripped text between the markers and after the last one. */
  lemma ReadMarkedLayout(es: string, en: string, video: string)
    requires OnlyAt(Layout(es, en, video), EnMarker, |es|)
    requires OnlyAt(Layout(es, en, video), VideoMarker, |es| + |EnMarker| + |en|)
    ensures ReadMarked(Layout(es, en, video)) == Marked(Strip(es), Strip(en), Some(Strip(video)))
  {
    SplitOnlyOnce(es, EnMarker, en + VideoMarker + video);
    VideoTail(es, en, video);
    SplitOnlyOnce(en, VideoMarker, video);
  }

  /** In a reply where "PROMPT_ES:" occurs once, the text after it is the
      layout. */
  lemma AfterEsMarker(pre: string, es: string, en: string, video: string)
    requires OnlyAt(Reply(pre, es, en, video), EsMarker, |pre|)
    ensures Contains(Reply(pre, es, en, video), EsMarker)
    ensures SecondPart(Reply(pre, es, en, video), EsMarker) == Layout(es, en, video)
  {
    SplitOnlyOnce(pre, EsMarker, Layout(es, en, video));
  }

  /** A marker that occurs once in the reply, inside the layout, occurs
      once in the layout. */
  lemma LayoutMarker(pre: string, es: string, en: string, video: string, m: string, k: nat)
    requires OnlyAt(Reply(pre, es, en, video), m, |pre| + |EsMarker| + k)
    ensures OnlyAt(Layout(es, en, video), m, k)
  {
    OnlyAtSuffix(pre + EsMarker, Layout(es, en, video), m, |pre| + |EsMarker| + k);
  }

  /** The same, for the whole reply: whatever precedes the first marker is
      ignored, and both handlers agree. */
  lemma ReadLayout(pre: string, es: string, en: string, video: string)
    requires OnlyAt(Reply(pre, es, en, video), EsMarker, |pre|)
    requires OnlyAt(Reply(pre, es, en, video), EnMarker, |pre| + |EsMarker| + |es|)
    requires OnlyAt(Reply(pre, es, en, video), VideoMarker, |pre| + |EsMarker| + |es| + |EnMarker| + |en|)
    ensures ReadDirect(Reply(pre, es, en, video)) == Sections(Strip(es), Strip(en), Strip(video))
    ensures ReadFallback(Reply(pre, es, en, video)) == Sections(Strip(es), Strip(en), Strip(video))
  {
    AfterEsMarker(pre, es, en, video);
    LayoutMarker(pre, es, en, video, EnMarker, |es|);
    LayoutMarker(pre, es, en, video, VideoMarker, |es| + |EnMarker| + |en|);
    ReadMarkedLayout(es, en, video);
  }

  /** The two handlers differ only when the video marker is missing, and
      then both end with the default suggestion: after the `or` fallbacks
      they return the same sections for every reply. */
  lemma HandlersAgree(response: string)
    ensures Finish(response, ReadDirect(response)) == Finish(response, ReadFallback(response))
  {
  }

  /** A reply with no "PROMPT_ES:" is cut into slices: the Spanish part is
      its first 200 characters (or, when it is empty, empty), the English
      part the next 200, falling back to characters 150 to 300 when there
      are none, and the video part the next 200 or the default. */
  lemma UnmarkedReply(response: string)
    requires !Contains(response, EsMarker)
    ensures var r := Finish(response, ReadDirect(response));
      && r.es == Slice(response, 0, 200)
      && r.en == (if |response| > 200 then Slice(response, 200, 400) else Slice(response, 150, 300))
      && r.video == (if |response| > 400 then Slice(response, 400, 600) else DefaultVideo)
  {
  }
}
