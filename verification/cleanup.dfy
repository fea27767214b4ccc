/**
 * The stylesheet `<link>` rewrite (`Cleanup::clean_style_tag` of
 * includes/cleanup.php).
 *
 * The regular expression is taken as already run: its matches arrive as a
 * list of records holding the three capture groups (the optional id
 * attribute, the href and the media value), in the order they were found.
 */
module Cleanup {
  import opened Options

  /** One match of the stylesheet-link pattern. */
  datatype StyleMatch = StyleMatch(id: Option<string>, href: string, media: string)

  /** What a stylesheet link means to a browser: where it points and for which media. */
  datatype Link = Link(href: string, media: string)

  /** A rebuilt tag read back: its href and its media attribute, None when it has none. */
  datatype Tag = Tag(href: string, media: Option<string>)

  const Opening: string := "<link rel=\"stylesheet\" href=\""
  const MediaOpening: string := " media=\""
  const Closing: string := ">\n"

  /** `$media`: the attribute for a meaningful media value, nothing for "" or "all". */
  function MediaAttribute(media: string): (attribute: string)
    ensures attribute == "" <==> media == "" || media == "all"
    ensures attribute != "" ==> attribute == MediaOpening + media + "\""
  {
    if media != "" && media != "all" then MediaOpening + media + "\"" else ""
  }

  /**
   * `clean_style_tag($input)`: the input itself when the pattern does not
   * match; otherwise a new tag built from the first match's href and media,
   * without the id attribute.
   */
  function CleanStyleTag(input: string, matches: seq<StyleMatch>): (output: string)
    ensures matches == [] ==> output == input
    ensures matches != [] ==>
              && |output| >= |Opening| + |Closing|
              && output[..|Opening|] == Opening
              && output[|output| - |Closing|..] == Closing
    ensures matches != [] && (matches[0].media == "" || matches[0].media == "all") ==>
              output == Opening + matches[0].href + "\"" + Closing
    ensures matches != [] && matches[0].media != "" && matches[0].media != "all" ==>
              output == Opening + matches[0].href + "\"" + MediaOpening + matches[0].media + "\"" + Closing
  {
    if matches == [] then input
    else Opening + matches[0].href + "\"" + MediaAttribute(matches[0].media) + Closing
  }

  /** The media a link applies to when its media attribute is empty or absent. */
  function EffectiveMedia(media: string): string {
    if media == "" then "all" else media
  }

  /** What a tag means: a tag without a media attribute applies to all media. */
  function Meaning(tag: Tag): Link {
    Link(tag.href, if tag.media.Some? then EffectiveMedia(tag.media.value) else "all")
  }

  /** The position of the first `c` in `s`, or `|s|` when there is none. */
  function IndexOf(s: string, c: char): (i: nat)
    ensures i <= |s|
    ensures i < |s| ==> s[i] == c
    ensures forall j :: 0 <= j < i ==> s[j] != c
  {
    if s == [] then 0
    else if s[0] == c then 0
    else 1 + IndexOf(s[1..], c)
  }

  /** Reads the media part of a tag back: nothing, or ` media="value"`. */
  function ParseMedia(rest: string): Option<Option<string>> {
    if rest == [] then Some(None)
    else if |rest| > |MediaOpening| && rest[..|MediaOpening|] == MediaOpening && rest[|rest| - 1] == '"' then
      Some(Some(rest[|MediaOpening|..|rest| - 1]))
    else None
  }

  /**
   * Reads a cleaned tag back: its href up to the first double quote and the
   * value of its media attribute, if it has one.
   */
  function ParseCleanTag(tag: string): Option<Tag> {
    if |tag| < |Opening| + |Closing| || tag[..|Opening|] != Opening || tag[|tag| - |Closing|..] != Closing then None
    else
      var body := tag[|Opening|..|tag| - |Closing|];
      var q := IndexOf(body, '"');
      if q == |body| then None
      else
        var media := ParseMedia(body[q + 1..]);
        if media.None? then None else Some(Tag(body[..q], media.value))
  }

  /** The media attribute reads back as the media it was built from, None for "" and "all". */
  lemma ParseMediaAttribute(media: string)
    ensures ParseMedia(MediaAttribute(media)) == Some(if media == "" || media == "all" then None else Some(media))
  {
    var attribute := MediaAttribute(media);
    if attribute != "" {
      assert attribute[..|MediaOpening|] == MediaOpening;
      assert attribute[|MediaOpening|..|attribute| - 1] == media;
    }
  }

  /** A tag built from an href without a double quote reads back as that href and its media part. */
  lemma ParseTagFrame(href: string, attribute: string)
    requires '"' !in href
    ensures ParseCleanTag(Opening + href + "\"" + attribute + Closing)
         == if ParseMedia(attribute).None? then None else Some(Tag(href, ParseMedia(attribute).value))
  {
    var tag := Opening + href + "\"" + attribute + Closing;
    var body := href + "\"" + attribute;
    assert tag == Opening + body + Closing;
    assert tag[..|Opening|] == Opening;
    assert tag[|tag| - |Closing|..] == Closing;
    assert tag[|Opening|..|tag| - |Closing|] == body;
    FirstQuote(href, attribute);
    assert body[..|href|] == href;
    assert body[|href| + 1..] == attribute;
  }

  /** The first double quote after an href without one is the one that closes it. */
  lemma FirstQuote(href: string, rest: string)
    requires '"' !in href
    ensures IndexOf(href + "\"" + rest, '"') == |href|
  {
    var body := href + "\"" + rest;
    assert body[|href|] == '"';
    assert forall j :: 0 <= j < |href| ==> body[j] == href[j] && body[j] != '"';
  }

  /** A tag built from an href without a double quote reads back as that href and media. */
  lemma ParseRebuiltTag(href: string, media: string)
    requires '"' !in href
    ensures ParseCleanTag(Opening + href + "\"" + MediaAttribute(media) + Closing)
         == Some(Tag(href, if media == "" || media == "all" then None else Some(media)))
  {
    ParseTagFrame(href, MediaAttribute(media));
    ParseMediaAttribute(media);
  }

  /**
   * Reading the new tag back gives the first match's href, no media attribute
   * exactly when its media is "" or "all" and its media otherwise; so the
   * rewrite keeps the meaning of the link (for an href without a double quote,
   * which the rewrite does not escape).
   */
  lemma CleanStyleTagKeepsLink(input: string, first: StyleMatch, others: seq<StyleMatch>)
    requires '"' !in first.href
    ensures var parsed := ParseCleanTag(CleanStyleTag(input, [first] + others));
            && parsed.Some?
            && parsed.value.href == first.href
            && (parsed.value.media.None? <==> first.media == "" || first.media == "all")
            && (parsed.value.media.Some? ==> parsed.value.media.value == first.media)
            && Meaning(parsed.value) == Link(first.href, EffectiveMedia(first.media))
  {
    ParseRebuiltTag(first.href, first.media);
  }

  /** Only the first match counts: later matches and the input text are ignored. */
  lemma OnlyFirstMatchCounts(input: string, other: string, first: StyleMatch, rest: seq<StyleMatch>, rest': seq<StyleMatch>)
    ensures CleanStyleTag(input, [first] + rest) == CleanStyleTag(other, [first] + rest')
  {
  }

  /** The id attribute is dropped: the rewrite does not depend on it. */
  lemma IdIsDropped(input: string, first: StyleMatch, rest: seq<StyleMatch>, id: Option<string>)
    ensures CleanStyleTag(input, [first] + rest) == CleanStyleTag(input, [first.(id := id)] + rest)
  {
  }
}
